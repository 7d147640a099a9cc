/**
 * The match-winner state page (`/states/match-winner`): it finds the current match in the
 * polled snapshot, resolves both teams and scores through layered fallbacks, and names the
 * winner with a colour.
 */
module MatchWinnerPage {
  import opened Wrappers
  import opened JsonValue
  import opened GameUtils
  import Tournaments
  import Snapshot

  /** What the page shows: a loading notice, an unavailable notice, or the winner's name and colour. */
  datatype View = Loading | Unavailable | Shown(winnerName: Prop, winnerColor: Prop)

  /** `items.find(t => t.name === name)` over an array. */
  function FindIn(items: seq<Json>, name: Prop): (t: Prop)
    ensures t.Some? ==> t.value in items && StrictEq(Get(t, "name"), name)
    ensures t.None? <==> forall x :: x in items ==> !StrictEq(Get(Some(x), "name"), name)
    ensures t.Some? ==> exists k :: 0 <= k < |items| && t.value == items[k] &&
                                    forall j :: 0 <= j < k ==> !StrictEq(Get(Some(items[j]), "name"), name)
  {
    if |items| == 0 then None
    else if StrictEq(Get(Some(items[0]), "name"), name) then Some(items[0])
    else
      var r := FindIn(items[1..], name);
      assert forall j :: 1 <= j < |items| ==> items[j] == items[1..][j - 1];
      r
  }

  /** `teams?.find(...)`: `undefined` unless the teams are an array with a team of that name. */
  function FindByName(teams: Prop, name: Prop): Prop {
    if teams.Some? && teams.value.JArr? then FindIn(teams.value.items, name) else None
  }

  /** `tournament.matches?.[tournament.currentMatchIndex]`. */
  function CurrentMatch(tournament: Prop): Prop {
    At(Get(tournament, "matches"), Get(tournament, "currentMatchIndex"))
  }

  /** The team of the bracket match found by name, else the top-level config when that is truthy. */
  function TeamFor(teams: Prop, matchTeamId: Prop, config: Prop): Prop {
    var found := FindByName(teams, matchTeamId);
    if !Truthy(found) && Truthy(config) then config else found
  }

  /** The match's score when it is a number, else the top-level score when that is a number. */
  function ScoreFor(matchScore: Prop, topScore: Prop): Prop {
    if !IsNumber(matchScore) && IsNumber(topScore) then topScore else matchScore
  }

  /** The match's `winnerName`, else, with two numeric scores, the name of the strictly higher team. */
  function WinnerName(explicit: Prop, team1: Prop, team2: Prop, score1: Prop, score2: Prop): Prop {
    if !Truthy(explicit) && IsNumber(score1) && IsNumber(score2) then
      (if score1.value.n > score2.value.n then Get(team1, "name") else Get(team2, "name"))
    else explicit
  }

  /** `team.color || team.primaryColor || "gray"`. */
  function ColorOf(team: Prop): Prop {
    Or(Or(Get(team, "color"), Get(team, "primaryColor")), S("gray"))
  }

  /** The colour of the team whose name is the winner's, checking team 1 first, else "gray". */
  function WinnerColor(winner: Prop, team1: Prop, team2: Prop): Prop {
    if Truthy(winner) && Truthy(team1) && StrictEq(winner, Get(team1, "name")) then ColorOf(team1)
    else if Truthy(winner) && Truthy(team2) && StrictEq(winner, Get(team2, "name")) then ColorOf(team2)
    else S("gray")
  }

  /** The page as a function of the polled snapshot. */
  function ViewOf(gameData: Json): View {
    var data := Some(gameData);
    var tournament := Get(data, "tournament");
    if !Truthy(data) || !Truthy(tournament) then Loading
    else
      var m := CurrentMatch(tournament);
      var teams := Get(tournament, "teams");
      if !Truthy(m) || !Truthy(teams) then Unavailable
      else
        var team1 := TeamFor(teams, Get(m, "team1Id"), Get(data, "team1Config"));
        var team2 := TeamFor(teams, Get(m, "team2Id"), Get(data, "team2Config"));
        var score1 := ScoreFor(Get(m, "team1Score"), Get(data, "team1Score"));
        var score2 := ScoreFor(Get(m, "team2Score"), Get(data, "team2Score"));
        var winner := WinnerName(Get(m, "winnerName"), team1, team2, score1, score2);
        Shown(winner, WinnerColor(winner, team1, team2))
  }

  /** The name under the badge: the winner, or "TBD". */
  function Label(v: View): Prop
    requires v.Shown?
  {
    Or(v.winnerName, S("TBD"))
  }

  /** The render: each `let` of the page reassigned in turn. */
  method Resolve(gameData: Json) returns (view: View)
    ensures view == ViewOf(gameData)
  {
    var data := Some(gameData);
    if !Truthy(data) || !Truthy(Get(data, "tournament")) {
      return Loading;
    }
    var tournament := Get(data, "tournament");
    var m := CurrentMatch(tournament);
    var teams := Get(tournament, "teams");
    if !Truthy(m) || !Truthy(teams) {
      return Unavailable;
    }
    var team1 := FindByName(teams, Get(m, "team1Id"));
    var team2 := FindByName(teams, Get(m, "team2Id"));
    var team1Score := Get(m, "team1Score");
    var team2Score := Get(m, "team2Score");
    if !Truthy(team1) && Truthy(Get(data, "team1Config")) {
      team1 := Get(data, "team1Config");
    }
    if !Truthy(team2) && Truthy(Get(data, "team2Config")) {
      team2 := Get(data, "team2Config");
    }
    if !IsNumber(team1Score) && IsNumber(Get(data, "team1Score")) {
      team1Score := Get(data, "team1Score");
    }
    if !IsNumber(team2Score) && IsNumber(Get(data, "team2Score")) {
      team2Score := Get(data, "team2Score");
    }
    var winnerName := Get(m, "winnerName");
    if !Truthy(winnerName) && IsNumber(team1Score) && IsNumber(team2Score) {
      winnerName := if team1Score.value.n > team2Score.value.n then Get(team1, "name") else Get(team2, "name");
    }
    var winnerColor := S("gray");
    if Truthy(winnerName) && Truthy(team1) && StrictEq(winnerName, Get(team1, "name")) {
      winnerColor := Or(Or(Get(team1, "color"), Get(team1, "primaryColor")), S("gray"));
    } else if Truthy(winnerName) && Truthy(team2) && StrictEq(winnerName, Get(team2, "name")) {
      winnerColor := Or(Or(Get(team2, "color"), Get(team2, "primaryColor")), S("gray"));
    }
    view := Shown(winnerName, winnerColor);
  }

  /** Loading without a snapshot or tournament; unavailable without a match at the index or without teams. */
  lemma ViewScreens(gameData: Json)
    ensures ViewOf(gameData) == Loading <==>
              (gameData in {JNull, JBool(false), JNum(0), JStr("")} || !Truthy(Get(Some(gameData), "tournament")))
    ensures ViewOf(gameData) == Unavailable <==>
              Truthy(Get(Some(gameData), "tournament")) &&
              (!Truthy(CurrentMatch(Get(Some(gameData), "tournament"))) ||
               !Truthy(Get(Get(Some(gameData), "tournament"), "teams")))
  {
  }

  /** A team is the bracket's team of that name when there is one, else the top-level config. */
  lemma TeamAndScoreFallbacks(teams: Prop, id: Prop, config: Prop, matchScore: Prop, topScore: Prop)
    ensures Truthy(FindByName(teams, id)) ==> TeamFor(teams, id, config) == FindByName(teams, id)
    ensures !Truthy(FindByName(teams, id)) && Truthy(config) ==> TeamFor(teams, id, config) == config
    ensures Truthy(TeamFor(teams, id, config)) ==>
              TeamFor(teams, id, config) == config || StrictEq(Get(TeamFor(teams, id, config), "name"), id)
    ensures IsNumber(matchScore) ==> ScoreFor(matchScore, topScore) == matchScore
    ensures !IsNumber(matchScore) ==> ScoreFor(matchScore, topScore) == (if IsNumber(topScore) then topScore else matchScore)
  {
  }

  /**
   * An explicit winner name wins; otherwise team 1 wins only when strictly ahead, so a tie goes
   * to team 2; without two numeric scores there is no winner and the label reads "TBD".
   */
  lemma WinnerRule(explicit: Prop, team1: Prop, team2: Prop, score1: Prop, score2: Prop)
    ensures Truthy(explicit) ==> WinnerName(explicit, team1, team2, score1, score2) == explicit
    ensures !Truthy(explicit) && IsNumber(score1) && IsNumber(score2) ==>
              WinnerName(explicit, team1, team2, score1, score2) ==
                (if score1.value.n > score2.value.n then Get(team1, "name") else Get(team2, "name"))
    ensures !Truthy(explicit) && score1 == score2 && IsNumber(score1) ==>
              WinnerName(explicit, team1, team2, score1, score2) == Get(team2, "name")
    ensures !Truthy(explicit) && !(IsNumber(score1) && IsNumber(score2)) ==>
              Label(Shown(WinnerName(explicit, team1, team2, score1, score2), S("gray"))) == S("TBD")
  {
  }

  /** The winner's colour is `color`, else `primaryColor`, else "gray"; a name matching neither team gives "gray". */
  lemma WinnerColorRule(winner: Prop, team1: Prop, team2: Prop)
    ensures Truthy(winner) && Truthy(team1) && StrictEq(winner, Get(team1, "name")) ==>
              WinnerColor(winner, team1, team2) ==
                (if Truthy(Get(team1, "color")) then Get(team1, "color")
                 else if Truthy(Get(team1, "primaryColor")) then Get(team1, "primaryColor") else S("gray"))
    ensures !Truthy(winner) ==> WinnerColor(winner, team1, team2) == S("gray")
    ensures Truthy(WinnerColor(winner, team1, team2))
  {
  }
  /**
   * Every snapshot the control page writes shows "Match information unavailable.": its
   * tournament has no `currentMatchIndex`, so `matches[undefined]` is no match.
   */
  lemma ControlSnapshotUnavailable(gameState: Tournaments.GameState, round: Round,
                                   t: Tournaments.Tournament, m: Tournaments.Match, revealed: seq<bool>,
                                   team1Score: int, team2Score: int, roundScore: int, strikes: int)
    ensures ViewOf(Snapshot.SnapshotJson(gameState, round, t, m, revealed, team1Score, team2Score, roundScore, strikes))
            == Unavailable
  {
    Snapshot.SnapshotFields(gameState, round, t, m, revealed, team1Score, team2Score, roundScore, strikes);
  }

  /**
   * With the stored index written, the page finds the tournament's match at that index, and it
   * names a winner exactly when the index is in range.
   */
  lemma CorrectedSnapshotFindsMatch(gameState: Tournaments.GameState, round: Round,
                                    t: Tournaments.Tournament, m: Tournaments.Match, revealed: seq<bool>,
                                    team1Score: int, team2Score: int, roundScore: int, strikes: int)
    ensures var snap := Snapshot.CorrectedSnapshotJson(gameState, round, t, m, revealed, team1Score, team2Score, roundScore, strikes);
            var k := t.storedMatchIndex;
            CurrentMatch(Get(Some(snap), "tournament")) ==
              (if 0 <= k < |t.matches| then Some(Snapshot.MatchJson(t.matches[k])) else None) &&
            (ViewOf(snap).Shown? <==> 0 <= k < |t.matches|) &&
            (ViewOf(snap) == Unavailable <==> !(0 <= k < |t.matches|))
  {
    Snapshot.SnapshotKeysDistinct();
    Snapshot.CorrectedSnapshotFields(gameState, round, t, m, revealed, team1Score, team2Score, roundScore, strikes, 20);
    assert Snapshot.SnapshotKeys[20] == "tournament";
  }
}

