/**
 * The record the control page writes to shared storage after each change of the game: the
 * state, round, scores, the two team configurations the viewers draw, placeholders for the
 * parts the control page never fills, and the tournament. Records become JSON objects here
 * exactly as `JSON.stringify` writes them, `undefined` members dropped.
 */
module Snapshot {
  import opened Wrappers
  import opened JsonValue
  import opened Text
  import opened GameUtils
  import opened Tournaments

  function OptS(o: Option<string>): Prop {
    if o.Some? then S(o.value) else None
  }

  function OptN(o: Option<int>): Prop {
    if o.Some? then N(o.value) else None
  }

  function StatusName(s: MatchStatus): string {
    match s
    case Pending => "pending"
    case InProgress => "in-progress"
    case Completed => "completed"
  }

  function AnswerJson(a: Answer): Json {
    Obj([("text", S(a.text)), ("points", N(a.points))])
  }

  function QuestionJson(q: MatchQuestion): Json {
    Obj([("id", S(q.id)), ("round", Some(RoundJson(q.round))), ("question", S(q.question)),
         ("answers", Some(JArr(seq(|q.answers|, i requires 0 <= i < |q.answers| => AnswerJson(q.answers[i]))))),
         ("category", S(q.category)), ("difficulty", S(q.difficulty))])
  }

  function MatchJson(m: Match): Json {
    Obj([("id", S(m.id)), ("team1Id", S(m.team1Id)), ("team2Id", S(m.team2Id)),
         ("winnerId", OptS(m.winnerId)), ("score1", OptN(m.score1)), ("score2", OptN(m.score2)),
         ("status", S(StatusName(m.status))),
         ("questions", Some(JArr(seq(|m.questions|, i requires 0 <= i < |m.questions| => QuestionJson(m.questions[i]))))),
         ("currentRound", Some(RoundJson(m.currentRound))),
         ("currentQuestionIndex", N(m.currentQuestionIndex)), ("gameState", S(StateName(m.gameState)))])
  }

  function TeamJson(t: TeamConfig): Json {
    Obj([("name", S(t.name)), ("primaryColor", S(t.primaryColor)), ("secondaryColor", S(t.secondaryColor)),
         ("icon", S(t.icon)), ("iconUrl", OptS(t.iconUrl)), ("logo", OptS(t.logo)), ("motto", OptS(t.motto))])
  }

  function TeamsJson(teams: seq<TeamConfig>): Json {
    JArr(seq(|teams|, i requires 0 <= i < |teams| => TeamJson(teams[i])))
  }

  /** `s || fallback` for a string. */
  function OrString(s: string, fallback: string): string {
    if s != "" then s else fallback
  }

  /** The colour the snapshot writes for a team: its primary colour with the first `#` removed. */
  function SnapshotColor(primaryColor: string): string {
    RemoveFirst(primaryColor, '#')
  }

  /**
   * `team1Config` / `team2Config`: the team at position i with each of name, colour and icon
   * falling back when falsy, and logo and motto copied (dropped when absent); a missing team
   * gives the three fallbacks alone.
   */
  function TeamConfigJson(teams: seq<TeamConfig>, i: nat, name: string, color: string, icon: string): Json {
    if i < |teams| then
      var t := teams[i];
      Obj([("name", S(OrString(t.name, name))),
           ("color", S(OrString(SnapshotColor(t.primaryColor), color))),
           ("icon", S(OrString(t.icon, icon))),
           ("logo", OptS(t.logo)), ("motto", OptS(t.motto))])
    else
      Obj([("name", S(name)), ("color", S(color)), ("icon", S(icon)), ("logo", None), ("motto", None)])
  }

  function RevealedJson(revealed: seq<bool>): Json {
    JArr(seq(|revealed|, i requires 0 <= i < |revealed| => JBool(revealed[i])))
  }

  /** `currentMatch.questions.find(q => q.round === currentRound) || null`. */
  function CurrentQuestionJson(m: Match, round: Round): Json {
    var question := QuestionFor(m.questions, round);
    if question.Some? then QuestionJson(question.value) else JNull
  }

  function MatchesJson(matches: seq<Match>): Json {
    JArr(seq(|matches|, i requires 0 <= i < |matches| => MatchJson(matches[i])))
  }

  /**
   * The `tournament` member: name, teams and matches. Its `currentMatchIndex` is read from the
   * backend row, which carries the index as `current_match_index`, so it is `undefined` and
   * `JSON.stringify` drops it.
   */
  function TournamentJson(t: Tournament): Json {
    Obj([("name", S(t.name)), ("teams", Some(TeamsJson(t.teams))), ("matches", Some(MatchesJson(t.matches))),
         ("currentMatchIndex", None)])
  }

  /** The `tournament` member with the row's `current_match_index` written as `currentMatchIndex`. */
  function CorrectedTournamentJson(t: Tournament): Json {
    Obj([("name", S(t.name)), ("teams", Some(TeamsJson(t.teams))), ("matches", Some(MatchesJson(t.matches))),
         ("currentMatchIndex", N(t.storedMatchIndex))])
  }

  /**
   * Both tournament members carry the tournament's teams and matches; as written the index
   * reads `undefined`, corrected it reads the stored index.
   */
  lemma TournamentMembers(t: Tournament)
    ensures Get(Some(TournamentJson(t)), "teams") == Some(TeamsJson(t.teams))
    ensures Get(Some(TournamentJson(t)), "matches") == Some(MatchesJson(t.matches))
    ensures Get(Some(TournamentJson(t)), "currentMatchIndex") == None
    ensures Get(Some(CorrectedTournamentJson(t)), "teams") == Some(TeamsJson(t.teams))
    ensures Get(Some(CorrectedTournamentJson(t)), "matches") == Some(MatchesJson(t.matches))
    ensures Get(Some(CorrectedTournamentJson(t)), "currentMatchIndex") == N(t.storedMatchIndex)
  {
    var written := [("name", S(t.name)), ("teams", Some(TeamsJson(t.teams))),
                    ("matches", Some(MatchesJson(t.matches))), ("currentMatchIndex", None)];
    var corrected := [("name", S(t.name)), ("teams", Some(TeamsJson(t.teams))),
                      ("matches", Some(MatchesJson(t.matches))), ("currentMatchIndex", N(t.storedMatchIndex))];
    assert TournamentJson(t) == Obj(written);
    assert CorrectedTournamentJson(t) == Obj(corrected);
    GetDistinct(written, 1);
    GetDistinct(written, 2);
    GetDistinct(written, 3);
    GetDistinct(corrected, 1);
    GetDistinct(corrected, 2);
    GetDistinct(corrected, 3);
  }

  /** The snapshot's keys, in the order the control page writes them. */
  const SnapshotKeys: seq<string> := [
    "gameState", "currentRound", "currentQuestionIndex", "revealedAnswers", "team1Score",
    "team2Score", "roundScore", "currentTeam", "strikes", "team1Config", "team2Config",
    "showStrikeOverlay", "fastMoneyScore", "fastMoneyAnswers", "gameWinner", "tournamentWinner",
    "currentQuestion", "passOrPlayChoice", "allAnswersRevealed", "roundWinner", "tournament"
  ]

  /** The value of each key, in the same order. */
  function SnapshotValues(gameState: GameState, round: Round, t: Tournament, m: Match,
                          revealed: seq<bool>, team1Score: int, team2Score: int,
                          roundScore: int, strikes: int): seq<Prop>
  {
    [S(StateName(gameState)), Some(RoundJson(round)), N(m.currentQuestionIndex),
     Some(RevealedJson(revealed)), N(team1Score), N(team2Score), N(roundScore), S("team1"),
     N(strikes), Some(TeamConfigJson(t.teams, 0, "Team 1", "red", "crown")),
     Some(TeamConfigJson(t.teams, 1, "Team 2", "blue", "star")), Some(JBool(false)), N(0),
     Some(JArr([])), Some(JNull), Some(JNull), Some(CurrentQuestionJson(m, round)), Some(JNull),
     Some(JBool(false)), Some(JNull), Some(TournamentJson(t))]
  }

  function Zip(keys: seq<string>, values: seq<Prop>): (ms: seq<(string, Prop)>)
    requires |keys| == |values|
    ensures |ms| == |keys|
    ensures forall i :: 0 <= i < |ms| ==> ms[i] == (keys[i], values[i])
  {
    seq(|keys|, i requires 0 <= i < |keys| => (keys[i], values[i]))
  }

  function SnapshotJson(gameState: GameState, round: Round, t: Tournament, m: Match,
                        revealed: seq<bool>, team1Score: int, team2Score: int,
                        roundScore: int, strikes: int): Json
  {
    Obj(Zip(SnapshotKeys, SnapshotValues(gameState, round, t, m, revealed, team1Score, team2Score, roundScore, strikes)))
  }

  /** The snapshot with the corrected `tournament` member and every other member as written. */
  function CorrectedSnapshotJson(gameState: GameState, round: Round, t: Tournament, m: Match,
                                 revealed: seq<bool>, team1Score: int, team2Score: int,
                                 roundScore: int, strikes: int): Json
  {
    var values := SnapshotValues(gameState, round, t, m, revealed, team1Score, team2Score, roundScore, strikes);
    Obj(Zip(SnapshotKeys, values[20 := Some(CorrectedTournamentJson(t))]))
  }

  lemma SnapshotKeysDistinct()
    ensures forall i, j :: 0 <= i < j < |SnapshotKeys| ==> SnapshotKeys[i] != SnapshotKeys[j]
  {
  }

  /** Every member of the snapshot reads back as written. */
  lemma SnapshotReadsBack(values: seq<Prop>, i: nat)
    requires |values| == |SnapshotKeys| && i < |SnapshotKeys|
    ensures Get(Some(Obj(Zip(SnapshotKeys, values))), SnapshotKeys[i]) == values[i]
  {
    SnapshotKeysDistinct();
    GetDistinct(Zip(SnapshotKeys, values), i);
  }

  /**
   * The snapshot reads back the host's state, scores and round, the current question of the
   * round (null when the match has none), and the constants the control page always writes:
   * `currentTeam` is "team1" whichever team has control, no strike overlay, no winners.
   */
  lemma SnapshotFields(gameState: GameState, round: Round, t: Tournament, m: Match,
                       revealed: seq<bool>, team1Score: int, team2Score: int,
                       roundScore: int, strikes: int)
    ensures var snap := Some(SnapshotJson(gameState, round, t, m, revealed, team1Score, team2Score, roundScore, strikes));
            var question := QuestionFor(m.questions, round);
            Get(snap, "gameState") == S(StateName(gameState)) &&
            Get(snap, "currentRound") == Some(RoundJson(round)) &&
            Get(snap, "team1Score") == N(team1Score) && Get(snap, "team2Score") == N(team2Score) &&
            Get(snap, "roundScore") == N(roundScore) && Get(snap, "strikes") == N(strikes) &&
            Get(snap, "currentTeam") == S("team1") &&
            Get(snap, "showStrikeOverlay") == Some(JBool(false)) &&
            Get(snap, "gameWinner") == Some(JNull) && Get(snap, "roundWinner") == Some(JNull) &&
            Get(snap, "currentQuestion") == Some(if question.Some? then QuestionJson(question.value) else JNull) &&
            Get(snap, "tournament") == Some(TournamentJson(t)) &&
            Get(Get(snap, "tournament"), "teams") == Some(TeamsJson(t.teams)) &&
            Get(Get(snap, "tournament"), "matches") == Some(MatchesJson(t.matches)) &&
            Get(Get(snap, "tournament"), "currentMatchIndex") == None
  {
    TournamentMembers(t);
    var vs := SnapshotValues(gameState, round, t, m, revealed, team1Score, team2Score, roundScore, strikes);
    var snap := Some(Obj(Zip(SnapshotKeys, vs)));
    SnapshotReadsBack(vs, 0);
    SnapshotReadsBack(vs, 1);
    SnapshotReadsBack(vs, 4);
    SnapshotReadsBack(vs, 5);
    SnapshotReadsBack(vs, 6);
    SnapshotReadsBack(vs, 7);
    SnapshotReadsBack(vs, 8);
    SnapshotReadsBack(vs, 11);
    SnapshotReadsBack(vs, 14);
    SnapshotReadsBack(vs, 16);
    SnapshotReadsBack(vs, 19);
    SnapshotReadsBack(vs, 20);
    assert SnapshotKeys[0] == "gameState" && SnapshotKeys[1] == "currentRound";
    assert SnapshotKeys[4] == "team1Score" && SnapshotKeys[5] == "team2Score" && SnapshotKeys[6] == "roundScore";
    assert SnapshotKeys[7] == "currentTeam" && SnapshotKeys[8] == "strikes" && SnapshotKeys[11] == "showStrikeOverlay";
    assert SnapshotKeys[14] == "gameWinner" && SnapshotKeys[16] == "currentQuestion";
    assert SnapshotKeys[19] == "roundWinner" && SnapshotKeys[20] == "tournament";
  }

  /**
   * The corrected snapshot differs from the written one only in its `tournament` member, whose
   * `currentMatchIndex` is the stored index.
   */
  lemma CorrectedSnapshotFields(gameState: GameState, round: Round, t: Tournament, m: Match,
                                revealed: seq<bool>, team1Score: int, team2Score: int,
                                roundScore: int, strikes: int, i: nat)
    requires i < |SnapshotKeys|
    ensures var snap := Some(SnapshotJson(gameState, round, t, m, revealed, team1Score, team2Score, roundScore, strikes));
            var fixed := Some(CorrectedSnapshotJson(gameState, round, t, m, revealed, team1Score, team2Score, roundScore, strikes));
            Get(fixed, SnapshotKeys[i]) == if SnapshotKeys[i] == "tournament" then Some(CorrectedTournamentJson(t))
                                           else Get(snap, SnapshotKeys[i])
    ensures var fixed := Some(CorrectedSnapshotJson(gameState, round, t, m, revealed, team1Score, team2Score, roundScore, strikes));
            Get(Get(fixed, "tournament"), "matches") == Some(MatchesJson(t.matches)) &&
            Get(Get(fixed, "tournament"), "teams") == Some(TeamsJson(t.teams)) &&
            Get(Get(fixed, "tournament"), "currentMatchIndex") == N(t.storedMatchIndex)
  {
    var vs := SnapshotValues(gameState, round, t, m, revealed, team1Score, team2Score, roundScore, strikes);
    var ws := vs[20 := Some(CorrectedTournamentJson(t))];
    SnapshotKeysDistinct();
    SnapshotReadsBack(vs, i);
    SnapshotReadsBack(ws, i);
    SnapshotReadsBack(ws, 20);
    assert SnapshotKeys[20] == "tournament";
    TournamentMembers(t);
  }

  /**
   * The team configurations viewers draw: each of name, colour and icon is the team's own when
   * non-empty and the fallback otherwise, and a missing team gives the fallbacks.
   */
  lemma {:induction false} TeamConfigFields(teams: seq<TeamConfig>, i: nat, name: string, color: string, icon: string)
    ensures var c := Some(TeamConfigJson(teams, i, name, color, icon));
            Get(c, "name") == S(if i < |teams| then OrString(teams[i].name, name) else name) &&
            Get(c, "color") == S(if i < |teams| then OrString(SnapshotColor(teams[i].primaryColor), color) else color) &&
            Get(c, "icon") == S(if i < |teams| then OrString(teams[i].icon, icon) else icon) &&
            Get(c, "motto") == (if i < |teams| then OptS(teams[i].motto) else None)
  {
    var ms := if i < |teams| then
        [("name", S(OrString(teams[i].name, name))),
         ("color", S(OrString(SnapshotColor(teams[i].primaryColor), color))),
         ("icon", S(OrString(teams[i].icon, icon))),
         ("logo", OptS(teams[i].logo)), ("motto", OptS(teams[i].motto))]
      else [("name", S(name)), ("color", S(color)), ("icon", S(icon)), ("logo", None), ("motto", None)];
    assert TeamConfigJson(teams, i, name, color, icon) == Obj(ms);
    GetDistinct(ms, 0);
    GetDistinct(ms, 1);
    GetDistinct(ms, 2);
    GetDistinct(ms, 4);
  }

  /**
   * The colour every team of the palette gets in the snapshot is a hex code without its `#`,
   * which no viewer's colour table lists, so every palette team is drawn blue.
   */
  lemma PaletteTeamsRenderBlue(i: nat)
    requires i < |TeamColorHex|
    ensures SnapshotColor(TeamColorHex[i]) == TeamColorHex[i][1..]
    ensures SnapshotColor(TeamColorHex[i]) !in ColorMap
    ensures ColorClasses(SnapshotColor(TeamColorHex[i])) == ColorMap["blue"]
  {
    var hex := TeamColorHex[i];
    assert hex[0] == '#';
    assert FirstIndex(hex, '#') == 0;
    assert |hex| == 7;
  }

  /** The default first team, `#ef4444` red, reaches the viewers as "ef4444" and is drawn blue. */
  lemma DefaultTeamOneRendersBlue()
    ensures SnapshotColor(DefaultTeams[0].primaryColor) == "ef4444"
    ensures ColorClasses(SnapshotColor(DefaultTeams[0].primaryColor)).bg == "bg-blue-600"
  {
    PaletteTeamsRenderBlue(0);
  }

  /** The colour name the palette gives a primary colour, or the colour without `#` when it is not in the palette. */
  function PaletteColorName(primaryColor: string): (name: string)
    ensures primaryColor in TeamColorHex ==> name in TeamColorNames
    ensures primaryColor !in TeamColorHex ==> name == SnapshotColor(primaryColor)
  {
    var k := FindIndex(TeamColorHex, (h: string) => h == primaryColor);
    if k == -1 then SnapshotColor(primaryColor) else TeamColorNames[k]
  }

  /** Written through the palette, each palette colour reaches the viewers as its own named colour. */
  lemma PaletteColorsRenderByName(i: nat)
    requires i < |TeamColorHex|
    ensures PaletteColorName(TeamColorHex[i]) == TeamColorNames[i]
    ensures ColorClasses(PaletteColorName(TeamColorHex[i])) == ColorMap[TeamColorNames[i]]
    ensures ColorClasses(PaletteColorName(TeamColorHex[i])).bg == "bg-" + TeamColorNames[i] + "-600"
  {
    var k := FindIndex(TeamColorHex, (h: string) => h == TeamColorHex[i]);
    assert forall a, b :: 0 <= a < b < |TeamColorHex| ==> TeamColorHex[a] != TeamColorHex[b];
    assert k == i;
  }
}
