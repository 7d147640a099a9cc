/**
 * The audience viewer (`/viewer`): it polls the shared snapshot every 100 ms and normalises
 * whatever it finds into a complete `GameData`, field by field, with a default for each falsy
 * field and a legacy mapping of the round.
 */
module Viewer {
  import opened Wrappers
  import opened JsonValue
  import opened GameUtils
  import opened Tournaments
  import Snapshot
  import Storage
  import Display

  /** The snapshot fields the viewer copies with a `||` default; `currentRound` is mapped separately. */
  const FieldKeys: set<string> := {
    "gameState", "currentQuestionIndex", "revealedAnswers", "team1Score", "team2Score",
    "roundScore", "currentTeam", "strikes", "team1Config", "team2Config", "showStrikeOverlay",
    "fastMoneyScore", "fastMoneyAnswers", "gameWinner", "tournamentWinner", "currentQuestion",
    "passOrPlayChoice", "allAnswersRevealed", "roundWinner", "tournament"
  }

  function TeamDefault(name: string, color: string, icon: string, motto: string): Json {
    JObj([("name", JStr(name)), ("color", JStr(color)), ("icon", JStr(icon)), ("motto", JStr(motto))])
  }

  const Team1Default := TeamDefault("Team 1", "red", "crown", "Champions in the making!")
  const Team2Default := TeamDefault("Team 2", "blue", "star", "Ready to dominate!")

  /** The right-hand side of each field's `||`. */
  function FieldDefault(key: string): Json {
    match key
    case "gameState" => JStr("idle")
    case "revealedAnswers" => JArr([])
    case "currentTeam" => JStr("team1")
    case "team1Config" => Team1Default
    case "team2Config" => Team2Default
    case "showStrikeOverlay" => JBool(false)
    case "fastMoneyAnswers" => JArr([])
    case "allAnswersRevealed" => JBool(false)
    case "currentQuestionIndex" => JNum(0)
    case "team1Score" => JNum(0)
    case "team2Score" => JNum(0)
    case "roundScore" => JNum(0)
    case "strikes" => JNum(0)
    case "fastMoneyScore" => JNum(0)
    case _ => JNull
  }

  /** The default team objects read back their name, colour and icon. */
  lemma TeamDefaultFields(name: string, color: string, icon: string, motto: string)
    ensures var t := Some(TeamDefault(name, color, icon, motto));
            Get(t, "name") == S(name) && Get(t, "color") == S(color) && Get(t, "icon") == S(icon) &&
            Get(t, "motto") == S(motto)
  {
    var f1 := [("name", JStr(name))];
    var f2 := f1 + [("color", JStr(color))];
    var f3 := f2 + [("icon", JStr(icon))];
    var f4 := f3 + [("motto", JStr(motto))];
    assert f4 == TeamDefault(name, color, icon, motto).fields;
    assert f4[..3] == f3 && f3[..2] == f2 && f2[..1] == f1;
    assert Lookup(f1, "name") == S(name);
    assert Lookup(f2, "color") == S(color) && Lookup(f2, "name") == S(name);
    assert Lookup(f3, "icon") == S(icon) && Lookup(f3, "color") == S(color) && Lookup(f3, "name") == S(name);
  }

  /** `a || b` where b is a value. */
  function OrValue(a: Prop, b: Json): Json {
    if Truthy(a) then a.value else b
  }

  /** The viewer's state cell: the round it shows, and every other field as parsed or defaulted. */
  datatype GameData = GameData(currentRound: Round, fields: map<string, Json>)

  /**
   * The legacy round mapping as written: "round1", "round2" and "round3" become 1, 2 and 3, and
   * anything else, including the numbers and "tiebreaker" the control page writes, becomes 1.
   */
  function NormaliseRound(p: Prop): Round {
    if StrictEq(p, S("round1")) then R1
    else if StrictEq(p, S("round2")) then R2
    else if StrictEq(p, S("round3")) then R3
    else R1
  }

  /** The mapped record built from a parsed snapshot. */
  function Normalise(parsed: Prop): GameData {
    GameData(NormaliseRound(Get(parsed, "currentRound")),
             map k | k in FieldKeys :: OrValue(Get(parsed, k), FieldDefault(k)))
  }

  /**
   * The literal the viewer falls back to when nothing is stored or the stored text fails: it
   * holds, field by field, the same values as the `||` defaults.
   */
  const DefaultData := GameData(R1, map k | k in FieldKeys :: FieldDefault(k))

  /**
   * `loadGameState`: a missing or empty key gives the default; text that does not parse, or
   * parses to `null` (whose property reads throw), is caught and gives the default too.
   */
  function Load(stored: Option<string>, parse: string -> Option<Json>): GameData {
    if stored.None? || stored.value == "" then DefaultData
    else match parse(stored.value)
      case None => DefaultData
      case Some(j) => if j == JNull then DefaultData else Normalise(Some(j))
  }

  /** The fallback literal is what normalising an empty record gives: the two default paths agree. */
  lemma FallbackIsNormalisedEmpty()
    ensures DefaultData == Normalise(None)
    ensures DefaultData == Normalise(Some(JNull)) && DefaultData == Normalise(Some(JObj([])))
  {
    var n := Normalise(None);
    assert n.fields.Keys == DefaultData.fields.Keys;
    assert forall k :: k in FieldKeys ==> n.fields[k] == DefaultData.fields[k];
  }

  lemma NormaliseField(parsed: Prop, k: string)
    requires k in FieldKeys
    ensures Normalise(parsed).fields[k] == OrValue(Get(parsed, k), FieldDefault(k))
  {
  }

  /** Each field keeps a truthy parsed value and otherwise takes its default; no other field appears. */
  lemma NormaliseKeepsTruthyFields(parsed: Prop)
    ensures Normalise(parsed).fields.Keys == FieldKeys
    ensures forall k :: k in FieldKeys && Truthy(Get(parsed, k)) ==> Some(Normalise(parsed).fields[k]) == Get(parsed, k)
    ensures forall k :: k in FieldKeys && !Truthy(Get(parsed, k)) ==> Normalise(parsed).fields[k] == DefaultData.fields[k]
  {
    FallbackIsNormalisedEmpty();
  }

  /**
   * Nothing to read, or nothing readable, gives the default record: idle, round 1, zero scores,
   * team 1 in control, Team 1 red with the crown and Team 2 blue with the star.
   */
  lemma LoadFailureGivesDefaults(stored: Option<string>, parse: string -> Option<Json>)
    requires stored.None? || stored.value == "" || parse(stored.value).None? || parse(stored.value) == Some(JNull)
    ensures var d := Load(stored, parse);
            d == DefaultData && d.currentRound == R1 &&
            d.fields["gameState"] == JStr("idle") && d.fields["currentTeam"] == JStr("team1") &&
            d.fields["team1Score"] == JNum(0) && d.fields["team2Score"] == JNum(0) &&
            d.fields["roundScore"] == JNum(0) && d.fields["strikes"] == JNum(0) &&
            Get(Some(d.fields["team1Config"]), "name") == S("Team 1") &&
            Get(Some(d.fields["team1Config"]), "color") == S("red") &&
            Get(Some(d.fields["team1Config"]), "icon") == S("crown") &&
            Get(Some(d.fields["team2Config"]), "name") == S("Team 2") &&
            Get(Some(d.fields["team2Config"]), "color") == S("blue") &&
            Get(Some(d.fields["team2Config"]), "icon") == S("star")
  {
    TeamDefaultFields("Team 1", "red", "crown", "Champions in the making!");
    TeamDefaultFields("Team 2", "blue", "star", "Ready to dominate!");
  }

  /** As written, the viewer only ever shows rounds 1 to 3, and every round the control page stores reads as round 1. */
  lemma NormaliseRoundAsWritten(p: Prop, r: Round)
    ensures NormaliseRound(p) in {R1, R2, R3}
    ensures NormaliseRound(p) == R2 <==> p == S("round2")
    ensures NormaliseRound(p) == R3 <==> p == S("round3")
    ensures NormaliseRound(Some(RoundJson(r))) == R1
  {
  }

  /** A record carrying a state name, scores and "team1" keeps them through normalisation. */
  lemma NormaliseKeepsSnapshotValues(parsed: Prop, stateName: string, team1Score: int, team2Score: int,
                                     roundScore: int, strikes: int)
    requires stateName != ""
    requires Get(parsed, "gameState") == S(stateName) && Get(parsed, "currentTeam") == S("team1")
    requires Get(parsed, "team1Score") == N(team1Score) && Get(parsed, "team2Score") == N(team2Score)
    requires Get(parsed, "roundScore") == N(roundScore) && Get(parsed, "strikes") == N(strikes)
    ensures var f := Normalise(parsed).fields;
            f["gameState"] == JStr(stateName) && f["currentTeam"] == JStr("team1") &&
            f["team1Score"] == JNum(team1Score) && f["team2Score"] == JNum(team2Score) &&
            f["roundScore"] == JNum(roundScore) && f["strikes"] == JNum(strikes)
  {
    NormaliseField(parsed, "gameState");
    NormaliseField(parsed, "team1Score");
    NormaliseField(parsed, "team2Score");
    NormaliseField(parsed, "roundScore");
    NormaliseField(parsed, "strikes");
    NormaliseField(parsed, "currentTeam");
  }

  /**
   * What the viewer makes of a control-page snapshot: state and scores come through, team 1 is
   * always in control, and the round is always round 1, so a tie breaker's scores are never zeroed.
   */
  lemma ViewerReadsSnapshot(text: string, parse: string -> Option<Json>,
                            gameState: GameState, round: Round, t: Tournament, m: Match,
                            revealed: seq<bool>, team1Score: int, team2Score: int,
                            roundScore: int, strikes: int)
    requires text != ""
    requires parse(text) == Some(Snapshot.SnapshotJson(gameState, round, t, m, revealed, team1Score,
                                                       team2Score, roundScore, strikes))
    ensures var d := Load(Some(text), parse);
            d.currentRound == R1 &&
            (round != R1 ==> d.currentRound != round) &&
            d.fields["gameState"] == JStr(StateName(gameState)) &&
            d.fields["team1Score"] == JNum(team1Score) && d.fields["team2Score"] == JNum(team2Score) &&
            d.fields["roundScore"] == JNum(roundScore) && d.fields["strikes"] == JNum(strikes) &&
            d.fields["currentTeam"] == JStr("team1") &&
            Display.DisplayedScore(d.currentRound, team1Score) == team1Score
  {
    var snap := parse(text);
    Snapshot.SnapshotFields(gameState, round, t, m, revealed, team1Score, team2Score, roundScore, strikes);
    assert Load(Some(text), parse) == Normalise(snap);
    NormaliseKeepsSnapshotValues(snap, StateName(gameState), team1Score, team2Score, roundScore, strikes);
    NormaliseRoundAsWritten(Get(snap, "currentRound"), round);
  }

  /** The corrected mapping: the stored numbers and "tiebreaker" as themselves, the legacy strings as before. */
  function NormaliseRoundCorrected(p: Prop): (r: Round)
    ensures StrictEq(p, S("round2")) ==> r == R2
    ensures StrictEq(p, S("round3")) ==> r == R3
  {
    match p
    case Some(JNum(2)) => R2
    case Some(JNum(3)) => R3
    case Some(JNum(4)) => R4
    case Some(JStr("tiebreaker")) => Tiebreaker
    case _ => NormaliseRound(p)
  }

  /** Corrected, every stored round reads back as itself, and the legacy strings still read as before. */
  lemma NormaliseRoundCorrectedRoundTrip(r: Round, p: Prop)
    ensures NormaliseRoundCorrected(Some(RoundJson(r))) == r
    ensures p in {S("round1"), S("round2"), S("round3")} ==> NormaliseRoundCorrected(p) == NormaliseRound(p)
    ensures Multiplier(NormaliseRoundCorrected(Some(RoundJson(r)))) == PointMultiplier(Some(RoundJson(r)))
  {
  }

  /** With the corrected mapping, the viewer of a snapshot shows the round the host is in. */
  lemma CorrectedViewerReadsSnapshotRound(gameState: GameState, round: Round, t: Tournament, m: Match,
                                          revealed: seq<bool>, team1Score: int, team2Score: int,
                                          roundScore: int, strikes: int)
    ensures var snap := Some(Snapshot.SnapshotJson(gameState, round, t, m, revealed, team1Score, team2Score, roundScore, strikes));
            NormaliseRoundCorrected(Get(snap, "currentRound")) == round &&
            Display.DisplayedScore(NormaliseRoundCorrected(Get(snap, "currentRound")), team1Score) ==
              (if round == Tiebreaker then 0 else team1Score)
  {
    Snapshot.SnapshotFields(gameState, round, t, m, revealed, team1Score, team2Score, roundScore, strikes);
    NormaliseRoundCorrectedRoundTrip(round, None);
  }

  /** The viewer page: `null` (loading) until the first poll, then the loaded record. */
  class ViewerPage {
    var gameData: Option<GameData>
    const store: Storage.Store

    constructor (store: Storage.Store)
      ensures this.store == store && gameData.None?
    {
      this.store := store;
      gameData := None;
    }

    /** One run of `loadGameState`, on mount and on every 100 ms tick. */
    method LoadGameState(parse: string -> Option<Json>)
      modifies this
      ensures gameData == Some(Load(store.GetItem(Storage.GameStateKey), parse))
    {
      var saved := store.GetItem(Storage.GameStateKey);
      if saved.Some? && saved.value != "" {
        var parsedData := parse(saved.value);
        if parsedData.None? || parsedData.value == JNull {
          gameData := Some(DefaultData);
        } else {
          gameData := Some(Normalise(parsedData));
        }
      } else {
        gameData := Some(DefaultData);
      }
    }
  }
}
