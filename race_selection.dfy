/** The two races the web page shows: the next race of the target season
    that has no result yet, and the latest one that has. */
module RaceSelection {
  import opened Wrappers
  import opened Store

  const TARGET_SEASON: int := 2026

  /** Whether `f1_race_results` holds any row of that season and round
      (the join condition of both queries). */
  predicate HasResult(results: map<Key, ResultRow>, season: int, rnd: int)
  {
    exists k :: k in results && k.season == season && k.round == rnd
  }

  /** A race the upcoming query can return: target season, no result. */
  predicate Pending(results: map<Key, ResultRow>, r: RaceRow)
  {
    r.season == TARGET_SEASON && !HasResult(results, r.season, r.round)
  }

  /** A race the latest-completed query can return: target season, and at
      least one result. */
  predicate Completed(results: map<Key, ResultRow>, r: RaceRow)
  {
    r.season == TARGET_SEASON && HasResult(results, r.season, r.round)
  }

  /** The upcoming race: of the pending rows of `races` (the table in scan
      order), one with the smallest round; `None` when there is none. */
  function Upcoming(races: seq<RaceRow>, results: map<Key, ResultRow>): (u: Option<RaceRow>)
    ensures u.Some? ==> u.value in races && Pending(results, u.value)
    ensures u.Some? ==> forall i :: 0 <= i < |races| && Pending(results, races[i]) ==> u.value.round <= races[i].round
    ensures u.None? <==> forall i :: 0 <= i < |races| ==> !Pending(results, races[i])
    decreases |races|
  {
    if races == [] then None
    else
      var best := Upcoming(races[..|races| - 1], results);
      var last := races[|races| - 1];
      if Pending(results, last) && (best.None? || last.round < best.value.round) then Some(last)
      else best
  }

  /** The latest completed race: of the completed rows of `races`, one with
      the greatest round; `None` when there is none. */
  function Latest(races: seq<RaceRow>, results: map<Key, ResultRow>): (l: Option<RaceRow>)
    ensures l.Some? ==> l.value in races && Completed(results, l.value)
    ensures l.Some? ==> forall i :: 0 <= i < |races| && Completed(results, races[i]) ==> races[i].round <= l.value.round
    ensures l.None? <==> forall i :: 0 <= i < |races| ==> !Completed(results, races[i])
    decreases |races|
  {
    if races == [] then None
    else
      var best := Latest(races[..|races| - 1], results);
      var last := races[|races| - 1];
      if Completed(results, last) && (best.None? || last.round > best.value.round) then Some(last)
      else best
  }

  /** Every target-season race before the upcoming one has a result. */
  lemma EarlierRacesCompleted(races: seq<RaceRow>, results: map<Key, ResultRow>, i: nat)
    requires Upcoming(races, results).Some? && i < |races|
    requires races[i].season == TARGET_SEASON && races[i].round < Upcoming(races, results).value.round
    ensures HasResult(results, races[i].season, races[i].round)
  {
  }

  /** The upcoming race and the latest completed race are never the same
      round: one has a result and the other has none. */
  lemma UpcomingIsNotLatest(races: seq<RaceRow>, results: map<Key, ResultRow>)
    requires Upcoming(races, results).Some? && Latest(races, results).Some?
    ensures Upcoming(races, results).value.round != Latest(races, results).value.round
  {
  }
}
