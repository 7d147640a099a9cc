/** The tournament-start state page (`/states/tournament-start`): the tournament's name and team count. */
module TournamentStartPage {
  import opened Wrappers
  import opened JsonValue
  import Tournaments
  import GameUtils
  import Snapshot

  /** The info panel renders only when the snapshot has a tournament. */
  predicate InfoShown(gameData: Json) {
    Truthy(Get(Some(gameData), "tournament"))
  }

  /** `v?.length`: defined for arrays and strings. */
  function Length(v: Prop): Prop {
    match v
    case Some(JArr(items)) => N(|items|)
    case Some(JStr(s)) => N(|s|)
    case _ => None
  }

  /** `tournament.teams?.length || 0`. */
  function TeamCount(gameData: Json): int {
    var c := Or(Length(Get(Get(Some(gameData), "tournament"), "teams")), N(0));
    if c.Some? && c.value.JNum? then c.value.n else 0
  }

  /** Without a teams array the count is 0; with one it is the array's length. */
  lemma TeamCountRule(gameData: Json)
    ensures var teams := Get(Get(Some(gameData), "tournament"), "teams");
            (teams.Some? && teams.value.JArr? ==> TeamCount(gameData) == |teams.value.items|) &&
            (teams.None? ==> TeamCount(gameData) == 0) &&
            TeamCount(gameData) >= 0
  {
  }

  /** A control-page snapshot shows its tournament with the number of teams the tournament has. */
  lemma ControlSnapshotShowsTeams(gameState: Tournaments.GameState, round: GameUtils.Round,
                                  t: Tournaments.Tournament, m: Tournaments.Match, revealed: seq<bool>,
                                  team1Score: int, team2Score: int, roundScore: int, strikes: int)
    ensures var snap := Snapshot.SnapshotJson(gameState, round, t, m, revealed, team1Score, team2Score, roundScore, strikes);
            InfoShown(snap) && TeamCount(snap) == |t.teams|
  {
    Snapshot.SnapshotFields(gameState, round, t, m, revealed, team1Score, team2Score, roundScore, strikes);
  }
}
