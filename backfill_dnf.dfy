/** The DNF export: every result of the 2024 and 2025 seasons whose
    retirement reason reads as a mechanical failure, collected round by
    round from the race endpoint. */
module DnfBackfill {
  import opened Wrappers
  import opened PyText
  import opened Payloads

  const SEASONS: seq<int> := [2024, 2025]
  const MAX_ROUNDS: int := 24

  /** `range(1, n + 1)`. */
  function RoundsUpTo(n: nat): (r: seq<int>)
    ensures |r| == n && forall i :: 0 <= i < n ==> r[i] == i + 1
  {
    seq(n, i requires 0 <= i < n => i + 1)
  }

  /** The rounds asked for in every season, `1 .. MAX_ROUNDS`. */
  const ROUNDS: seq<int> := RoundsUpTo(MAX_ROUNDS)

  /** Substrings that mark a retirement as a mechanical failure. */
  const MECH_KEYWORDS: seq<string> := [
    "engine", "gearbox", "transmission", "hydraul",
    "electrical", "fuel", "power", "cooling",
    "brake", "suspension"]

  /** Substrings that mark a retirement as an incident; they take
      precedence over the mechanical ones. */
  const NON_MECH_KEYWORDS: seq<string> := [
    "accident", "collision", "crash",
    "damage", "contact", "spun"]

  /** `any(x in text for x in keywords)`. */
  function AnyIn(keywords: seq<string>, text: string): (b: bool)
    ensures b <==> exists j :: 0 <= j < |keywords| && Contains(text, keywords[j])
  {
    if keywords == [] then false
    else Contains(text, keywords[0]) || AnyIn(keywords[1..], text)
  }

  /** Whether a retirement reason is classed as mechanical: no incident
      keyword in the lower-cased reason, and some mechanical one. */
  function IsMechanical(reason: string): bool
  {
    var r := Lower(reason);
    if AnyIn(NON_MECH_KEYWORDS, r) then false else AnyIn(MECH_KEYWORDS, r)
  }

  /** The classification in terms of where keywords occur in the
      lower-cased reason. */
  lemma IsMechanicalIff(reason: string)
    ensures IsMechanical(reason) <==>
      (forall j, i :: 0 <= j < |NON_MECH_KEYWORDS| ==> !OccursAt(Lower(reason), NON_MECH_KEYWORDS[j], i)) &&
      (exists j, i :: 0 <= j < |MECH_KEYWORDS| && OccursAt(Lower(reason), MECH_KEYWORDS[j], i))
  {
    var r := Lower(reason);
    forall j | 0 <= j < |NON_MECH_KEYWORDS| {
      ContainsIff(r, NON_MECH_KEYWORDS[j]);
    }
    forall j | 0 <= j < |MECH_KEYWORDS| {
      ContainsIff(r, MECH_KEYWORDS[j]);
    }
  }

  /** Lower-casing the reason first changes nothing: the test ignores case. */
  lemma IsMechanicalIgnoresCase(reason: string)
    ensures IsMechanical(Lower(reason)) == IsMechanical(reason)
  {
    assert Lower(Lower(reason)) == Lower(reason);
  }

  /** An incident keyword wins over a mechanical one: "Suspension damage"
      is not mechanical although it names the suspension. */
  lemma IncidentWins()
    ensures Contains(Lower("Suspension damage"), "suspension")
    ensures !IsMechanical("Suspension damage")
  {
    var r := Lower("Suspension damage");
    assert r[0..10] == "suspension";
    assert OccursAt(r, "suspension", 0);
    ContainsIff(r, "suspension");
    assert r[11..17] == "damage";
    assert OccursAt(r, NON_MECH_KEYWORDS[3], 11);
    ContainsIff(r, NON_MECH_KEYWORDS[3]);
  }

  /** A text lacking one of the characters of `needle` does not contain it. */
  lemma MissingChar(hay: string, needle: string, c: char)
    requires c in needle && c !in hay
    ensures !Contains(hay, needle)
  {
    ContainsIff(hay, needle);
  }

  /** A reason naming only a mechanical part is mechanical, whatever its case. */
  lemma EngineIsMechanical()
    ensures IsMechanical("Engine")
  {
    var r := Lower("Engine");
    assert r == "engine";
    assert Contains(r, MECH_KEYWORDS[0]);
    forall j | 0 <= j < |NON_MECH_KEYWORDS| ensures !Contains(r, NON_MECH_KEYWORDS[j]) {
      MissingChar(r, NON_MECH_KEYWORDS[j], if j == 5 then 's' else if j == 0 || j == 3 then 'a' else 'c');
    }
  }

  /** One line of the export: season, round, race id, driver id, team id,
      retirement reason and the mechanical flag. */
  datatype DnfRow = DnfRow(
    season: int,
    round: int,
    raceId: Option<string>,
    driver: Option<string>,
    team: Option<string>,
    reason: string,
    mechanical: bool)

  /** What one result record adds to the export: nothing when its
      `retired` reason is missing, empty or not mechanical; otherwise one
      row, whose driver and team are read with `[]` and so raise when
      missing. */
  function DnfEntry(season: int, rnd: int, raceId: Option<string>, e: ResultEntry): (r: Outcome<seq<DnfRow>>)
    ensures r.Done? ==> |r.value| <= 1
    ensures r.Done? && |r.value| == 1 ==>
      Get(e.retired) == Some(r.value[0].reason) && r.value[0].reason != "" &&
      IsMechanical(r.value[0].reason) && r.value[0].mechanical &&
      r.value[0].season == season && r.value[0].round == rnd && r.value[0].raceId == raceId
    ensures r.Done? && |r.value| == 1 ==>
      IndexNestedId(e.driver) == Done(r.value[0].driver) && IndexNestedId(e.team) == Done(r.value[0].team)
    ensures r == Done([]) <==>
      Get(e.retired).None? || Get(e.retired).value == "" || !IsMechanical(Get(e.retired).value)
    ensures r.Crashed? <==>
      Get(e.retired).Some? && Get(e.retired).value != "" && IsMechanical(Get(e.retired).value) &&
      (IndexNestedId(e.driver).Crashed? || IndexNestedId(e.team).Crashed?)
  {
    match Get(e.retired)
    case None => Done([])
    case Some(reason) =>
      if reason == "" || !IsMechanical(reason) then Done([])
      else
        match IndexNestedId(e.driver)
        case Crashed => Crashed
        case Done(driver) =>
          match IndexNestedId(e.team)
          case Crashed => Crashed
          case Done(team) => Done([DnfRow(season, rnd, raceId, driver, team, reason, true)])
  }

  function DnfEntryFn(season: int, rnd: int, raceId: Option<string>): ResultEntry -> Outcome<seq<DnfRow>>
  {
    e => DnfEntry(season, rnd, raceId, e)
  }

  /** What one round adds: nothing when its fetch failed (a missing entry of
      `fetched`) or the body has no `"races"`; a `null` `"races"` or
      `"results"` raises. */
  function RoundRows(fetched: map<(int, int), Doc<RaceObj>>, season: int, rnd: int): Outcome<seq<DnfRow>>
  {
    if (season, rnd) !in fetched then Done([])
    else
      match fetched[(season, rnd)].races
      case Absent => Done([])
      case Null => Crashed
      case Val(race) =>
        match GetList(race.results)
        case Crashed => Crashed
        case Done(es) => FlatMap(es, DnfEntryFn(season, rnd, Get(race.raceId)))
  }

  function RoundFn(fetched: map<(int, int), Doc<RaceObj>>, season: int): int -> Outcome<seq<DnfRow>>
  {
    rnd => RoundRows(fetched, season, rnd)
  }

  function SeasonRows(fetched: map<(int, int), Doc<RaceObj>>, season: int): Outcome<seq<DnfRow>>
  {
    FlatMap(ROUNDS, RoundFn(fetched, season))
  }

  function SeasonFn(fetched: map<(int, int), Doc<RaceObj>>): int -> Outcome<seq<DnfRow>>
  {
    season => SeasonRows(fetched, season)
  }

  /** The rows of the whole export, given the body each fetch returned;
      `Crashed` when the script dies before writing the file. */
  function DnfRows(fetched: map<(int, int), Doc<RaceObj>>): Outcome<seq<DnfRow>>
  {
    FlatMap(SEASONS, SeasonFn(fetched))
  }

  /** A round that raises stops the whole export. */
  lemma RoundCrashStops(fetched: map<(int, int), Doc<RaceObj>>, si: nat, rnd: int)
    requires si < |SEASONS| && 1 <= rnd <= MAX_ROUNDS
    requires RoundRows(fetched, SEASONS[si], rnd).Crashed?
    ensures DnfRows(fetched).Crashed?
  {
    assert ROUNDS[rnd - 1] == rnd;
    assert RoundFn(fetched, SEASONS[si])(ROUNDS[rnd - 1]).Crashed?;
    assert SeasonFn(fetched)(SEASONS[si]).Crashed?;
  }

  /** The loop over one round's results, appending to `rows`. */
  method AppendEntries(season: int, rnd: int, raceId: Option<string>, es: seq<ResultEntry>, rows: seq<DnfRow>)
    returns (out: Outcome<seq<DnfRow>>)
    ensures out.Crashed? <==> FlatMap(es, DnfEntryFn(season, rnd, raceId)).Crashed?
    ensures out.Done? ==> out.value == rows + FlatMap(es, DnfEntryFn(season, rnd, raceId)).value
  {
    var acc := rows;
    for k := 0 to |es|
      invariant FlatMap(es[..k], DnfEntryFn(season, rnd, raceId)).Done?
      invariant acc == rows + FlatMap(es[..k], DnfEntryFn(season, rnd, raceId)).value
    {
      FlatMapSnoc(es, k, DnfEntryFn(season, rnd, raceId));
      var reason := Get(es[k].retired);
      if reason.None? || reason.value == "" {
        continue;
      }
      if IsMechanical(reason.value) {
        var driver := IndexNestedId(es[k].driver);
        var team := IndexNestedId(es[k].team);
        if driver.Crashed? || team.Crashed? {
          assert DnfEntryFn(season, rnd, raceId)(es[k]).Crashed?;
          return Crashed;
        }
        acc := acc + [DnfRow(season, rnd, raceId, driver.value, team.value, reason.value, true)];
      }
    }
    assert es[..|es|] == es;
    return Done(acc);
  }

  /** The body of the round loop: read the fetched body and append the
      rows of its results. */
  method AppendRound(fetched: map<(int, int), Doc<RaceObj>>, season: int, rnd: int, rows: seq<DnfRow>)
    returns (out: Outcome<seq<DnfRow>>)
    ensures out.Crashed? <==> RoundRows(fetched, season, rnd).Crashed?
    ensures out.Done? ==> out.value == rows + RoundRows(fetched, season, rnd).value
  {
    if (season, rnd) !in fetched {
      return Done(rows);
    }
    var data := fetched[(season, rnd)];
    if data.races.Absent? {
      return Done(rows);
    }
    if data.races.Null? {
      return Crashed;
    }
    var race := data.races.v;
    var raceId := Get(race.raceId);
    var results := GetList(race.results);
    if results.Crashed? {
      return Crashed;
    }
    out := AppendEntries(season, rnd, raceId, results.value, rows);
  }

  /** The body of the season loop: rounds `1 .. MAX_ROUNDS` in order. */
  method AppendSeason(fetched: map<(int, int), Doc<RaceObj>>, season: int, rows: seq<DnfRow>)
    returns (out: Outcome<seq<DnfRow>>)
    ensures out.Crashed? <==> SeasonRows(fetched, season).Crashed?
    ensures out.Done? ==> out.value == rows + SeasonRows(fetched, season).value
  {
    out := AppendRounds(fetched, season, ROUNDS, rows);
  }

  /** The given rounds of one season in order, appended to `rows`; the
      first round that raises ends the run. */
  method AppendRounds(fetched: map<(int, int), Doc<RaceObj>>, season: int, rounds: seq<int>, rows: seq<DnfRow>)
    returns (out: Outcome<seq<DnfRow>>)
    ensures out.Crashed? <==> FlatMap(rounds, RoundFn(fetched, season)).Crashed?
    ensures out.Done? ==> out.value == rows + FlatMap(rounds, RoundFn(fetched, season)).value
  {
    var acc := rows;
    for i := 0 to |rounds|
      invariant FlatMap(rounds[..i], RoundFn(fetched, season)).Done?
      invariant acc == rows + FlatMap(rounds[..i], RoundFn(fetched, season)).value
    {
      var next := AppendRound(fetched, season, rounds[i], acc);
      FlatMapStep(rounds, i, RoundFn(fetched, season), rows, acc, RoundRows(fetched, season, rounds[i]));
      if next.Crashed? {
        return Crashed;
      }
      acc := next.value;
    }
    assert rounds[..|rounds|] == rounds;
    return Done(acc);
  }

  /** The export loop: seasons, then rounds `1 .. MAX_ROUNDS`, then the
      results of each round, appending one row per mechanical retirement. */
  method CollectDnfRows(fetched: map<(int, int), Doc<RaceObj>>) returns (out: Outcome<seq<DnfRow>>)
    ensures out == DnfRows(fetched)
  {
    var rows: seq<DnfRow> := [];
    for si := 0 to |SEASONS|
      invariant FlatMap(SEASONS[..si], SeasonFn(fetched)) == Done(rows)
    {
      FlatMapSnoc(SEASONS, si, SeasonFn(fetched));
      var next := AppendSeason(fetched, SEASONS[si], rows);
      if next.Crashed? {
        assert SeasonFn(fetched)(SEASONS[si]).Crashed?;
        return Crashed;
      }
      rows := next.value;
    }
    assert SEASONS[..|SEASONS|] == SEASONS;
    return Done(rows);
  }

  /** Every row a round yields is a mechanical retirement of that round. */
  lemma RoundRowsSound(fetched: map<(int, int), Doc<RaceObj>>, season: int, rnd: int, row: DnfRow)
    requires RoundRows(fetched, season, rnd).Done? && row in RoundRows(fetched, season, rnd).value
    ensures (season, rnd) in fetched && row.season == season && row.round == rnd
    ensures row.reason != "" && IsMechanical(row.reason) && row.mechanical
  {
    var race := fetched[(season, rnd)].races.v;
    var f := DnfEntryFn(season, rnd, Get(race.raceId));
    FlatMapMembers(race.results.v, f, row);
    var k :| 0 <= k < |race.results.v| && f(race.results.v[k]).Done? && row in f(race.results.v[k]).value;
  }

  /** `a` comes no later than `b` in season, then round, order. */
  predicate Before(a: DnfRow, b: DnfRow)
  {
    a.season < b.season || (a.season == b.season && a.round <= b.round)
  }

  /** Every row of a season belongs to that season and one of its rounds;
      the rows come in round order. */
  lemma SeasonRowsSound(fetched: map<(int, int), Doc<RaceObj>>, season: int)
    requires SeasonRows(fetched, season).Done?
    ensures forall row :: row in SeasonRows(fetched, season).value ==>
      row.season == season && 1 <= row.round <= MAX_ROUNDS && (season, row.round) in fetched &&
      row.reason != "" && IsMechanical(row.reason) && row.mechanical
    ensures SortedBy(SeasonRows(fetched, season).value, Before)
  {
    var f := RoundFn(fetched, season);
    forall row | row in SeasonRows(fetched, season).value
      ensures row.season == season && 1 <= row.round <= MAX_ROUNDS && (season, row.round) in fetched
      ensures row.reason != "" && IsMechanical(row.reason) && row.mechanical
    {
      FlatMapMembers(ROUNDS, f, row);
      var i :| 0 <= i < |ROUNDS| && f(ROUNDS[i]).Done? && row in f(ROUNDS[i]).value;
      RoundRowsSound(fetched, season, ROUNDS[i], row);
    }
    forall i, j, y, z | 0 <= i < j < |ROUNDS| && y in f(ROUNDS[i]).value && z in f(ROUNDS[j]).value
      ensures Before(y, z)
    {
      RoundRowsSound(fetched, season, ROUNDS[i], y);
      RoundRowsSound(fetched, season, ROUNDS[j], z);
    }
    forall i | 0 <= i < |ROUNDS| ensures SortedBy(f(ROUNDS[i]).value, Before) {
      forall a, b | 0 <= a < b < |f(ROUNDS[i]).value| ensures Before(f(ROUNDS[i]).value[a], f(ROUNDS[i]).value[b]) {
        RoundRowsSound(fetched, season, ROUNDS[i], f(ROUNDS[i]).value[a]);
        RoundRowsSound(fetched, season, ROUNDS[i], f(ROUNDS[i]).value[b]);
      }
    }
    FlatMapSorted(ROUNDS, f, Before);
  }

  /** The export holds only mechanical retirements with a non-empty
      reason, of the listed seasons and rounds whose fetch succeeded, and
      lists them by season, then round. */
  lemma DnfRowsSound(fetched: map<(int, int), Doc<RaceObj>>)
    requires DnfRows(fetched).Done?
    ensures forall row :: row in DnfRows(fetched).value ==>
      row.season in SEASONS && 1 <= row.round <= MAX_ROUNDS && (row.season, row.round) in fetched &&
      row.reason != "" && IsMechanical(row.reason) && row.mechanical
    ensures SortedBy(DnfRows(fetched).value, Before)
  {
    var f := SeasonFn(fetched);
    forall i | 0 <= i < |SEASONS| ensures SortedBy(f(SEASONS[i]).value, Before) {
      SeasonRowsSound(fetched, SEASONS[i]);
    }
    forall row | row in DnfRows(fetched).value
      ensures row.season in SEASONS && 1 <= row.round <= MAX_ROUNDS && (row.season, row.round) in fetched
      ensures row.reason != "" && IsMechanical(row.reason) && row.mechanical
    {
      FlatMapMembers(SEASONS, f, row);
      var i :| 0 <= i < |SEASONS| && f(SEASONS[i]).Done? && row in f(SEASONS[i]).value;
      SeasonRowsSound(fetched, SEASONS[i]);
    }
    forall i, j, y, z | 0 <= i < j < |SEASONS| && y in f(SEASONS[i]).value && z in f(SEASONS[j]).value
      ensures Before(y, z)
    {
      SeasonRowsSound(fetched, SEASONS[i]);
      SeasonRowsSound(fetched, SEASONS[j]);
    }
    FlatMapSorted(SEASONS, f, Before);
  }

  /** Every mechanical retirement with a non-empty reason in a fetched
      round of a listed season makes it into the export. */
  lemma DnfRowsComplete(fetched: map<(int, int), Doc<RaceObj>>, si: nat, ri: nat, k: nat)
    requires DnfRows(fetched).Done? && si < |SEASONS| && ri < |ROUNDS|
    requires (SEASONS[si], ROUNDS[ri]) in fetched
    requires fetched[(SEASONS[si], ROUNDS[ri])].races.Val?
    requires fetched[(SEASONS[si], ROUNDS[ri])].races.v.results.Val?
    requires k < |fetched[(SEASONS[si], ROUNDS[ri])].races.v.results.v|
    requires var e := fetched[(SEASONS[si], ROUNDS[ri])].races.v.results.v[k];
      e.retired.Val? && e.retired.v != "" && IsMechanical(e.retired.v)
    ensures var race := fetched[(SEASONS[si], ROUNDS[ri])].races.v;
      var e := race.results.v[k];
      exists row :: (row in DnfRows(fetched).value && row.season == SEASONS[si] && row.round == ROUNDS[ri] &&
        row.raceId == Get(race.raceId) && row.reason == e.retired.v && row.mechanical &&
        IndexNestedId(e.driver) == Done(row.driver) && IndexNestedId(e.team) == Done(row.team))
  {
    var season, rnd := SEASONS[si], ROUNDS[ri];
    var race := fetched[(season, rnd)].races.v;
    var es := race.results.v;
    var g := DnfEntryFn(season, rnd, Get(race.raceId));
    assert SeasonFn(fetched)(SEASONS[si]).Done?;
    assert RoundFn(fetched, season)(ROUNDS[ri]).Done?;
    assert g(es[k]).Done?;
    var row := g(es[k]).value[0];
    FlatMapIncludes(es, g, k, row);
    FlatMapIncludes(ROUNDS, RoundFn(fetched, season), ri, row);
    FlatMapIncludes(SEASONS, SeasonFn(fetched), si, row);
  }
}
