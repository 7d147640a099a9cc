/**
 * The bracket state page (`/states/bracket-show`): one card per match of the polled
 * tournament, styled by its position and completion, with team names, swatches and scores.
 */
module BracketShowPage {
  import opened Wrappers
  import opened JsonValue
  import opened GameUtils
  import Tournaments
  import Snapshot

  /** The three card styles: the current match, a completed match, any other match. */
  datatype CardStyle = Current | Completed | Upcoming

  /** The index test comes first, so the current match keeps its highlight even when completed. */
  function StyleOf(index: nat, currentMatchIndex: Prop, m: Prop): CardStyle {
    if StrictEq(N(index), currentMatchIndex) then Current
    else if Truthy(Get(m, "completed")) then Completed
    else Upcoming
  }

  /** The NEXT MATCH badge. */
  predicate HasBadge(index: nat, currentMatchIndex: Prop) {
    StrictEq(N(index), currentMatchIndex)
  }

  /** `match.teamX?.name || 'TBD'`. */
  function TeamLabel(team: Prop): Prop {
    Or(Get(team, "name"), S("TBD"))
  }

  /** The string a colour value names as a lookup key; anything but a string is no colour name. */
  function ColorKey(p: Prop): string {
    if p.Some? && p.value.JStr? then p.value.s else ""
  }

  /** `getColorClasses(match.teamX?.color || 'gray')`. */
  function Swatch(team: Prop): ColorEntry {
    ColorClasses(ColorKey(Or(Get(team, "color"), S("gray"))))
  }

  /** The score beside a team: shown only for a completed match. */
  function ShownScore(m: Prop, key: string): Option<Prop> {
    if Truthy(Get(m, "completed")) then Some(Get(m, key)) else None
  }

  /** The current match is highlighted and badged whatever its completion; any other card follows `completed`. */
  lemma CardRules(index: nat, currentMatchIndex: Prop, m: Prop)
    ensures StyleOf(index, currentMatchIndex, m) == Current <==> HasBadge(index, currentMatchIndex)
    ensures HasBadge(index, currentMatchIndex) && Truthy(Get(m, "completed")) ==> StyleOf(index, currentMatchIndex, m) == Current
    ensures !HasBadge(index, currentMatchIndex) ==>
              (StyleOf(index, currentMatchIndex, m) == Completed <==> Truthy(Get(m, "completed")))
    ensures ShownScore(m, "team1Score").Some? <==> Truthy(Get(m, "completed"))
  {
  }

  /** A missing team reads "TBD", and its "gray" fallback, not in the colour table, draws blue. */
  lemma MissingTeamShowsTBD(m: Prop, key: string)
    requires Get(m, key) == None
    ensures TeamLabel(Get(m, key)) == S("TBD")
    ensures Swatch(Get(m, key)) == ColorClasses("blue")
  {
    assert "gray" !in ColorMap;
  }

  /**
   * The page reads `team1`, `team2` and `completed`, which the control page's matches do not
   * carry (they have `team1Id`, `team2Id` and `status`): every card of a control-page
   * tournament shows "TBD" against "TBD" in blue, with no scores, and is never styled completed.
   */
  lemma ControlMatchesShowNoTeams(match_: Tournaments.Match, index: nat, currentMatchIndex: Prop)
    ensures var m := Some(Snapshot.MatchJson(match_));
            TeamLabel(Get(m, "team1")) == S("TBD") && TeamLabel(Get(m, "team2")) == S("TBD") &&
            Swatch(Get(m, "team1")) == ColorClasses("blue") &&
            ShownScore(m, "team1Score").None? && ShownScore(m, "team2Score").None? &&
            StyleOf(index, currentMatchIndex, m) != Completed
  {
    var members := [("id", S(match_.id)), ("team1Id", S(match_.team1Id)), ("team2Id", S(match_.team2Id)),
         ("winnerId", Snapshot.OptS(match_.winnerId)), ("score1", Snapshot.OptN(match_.score1)),
         ("score2", Snapshot.OptN(match_.score2)),
         ("status", S(Snapshot.StatusName(match_.status))),
         ("questions", Some(JArr(seq(|match_.questions|, i requires 0 <= i < |match_.questions| =>
                                       Snapshot.QuestionJson(match_.questions[i]))))),
         ("currentRound", Some(RoundJson(match_.currentRound))),
         ("currentQuestionIndex", N(match_.currentQuestionIndex)),
         ("gameState", S(Tournaments.StateName(match_.gameState)))];
    assert Snapshot.MatchJson(match_) == Obj(members);
    GetAbsent(members, "team1");
    GetAbsent(members, "team2");
    GetAbsent(members, "completed");
    MissingTeamShowsTBD(Some(Obj(members)), "team1");
    MissingTeamShowsTBD(Some(Obj(members)), "team2");
  }
  /**
   * The tournament of a control snapshot has no `currentMatchIndex`, so no card of its bracket
   * is highlighted or carries the NEXT MATCH badge.
   */
  lemma ControlSnapshotHighlightsNoCard(gameState: Tournaments.GameState, round: Round,
                                        t: Tournaments.Tournament, match_: Tournaments.Match, revealed: seq<bool>,
                                        team1Score: int, team2Score: int, roundScore: int, strikes: int,
                                        index: nat, m: Prop)
    ensures var snap := Snapshot.SnapshotJson(gameState, round, t, match_, revealed, team1Score, team2Score, roundScore, strikes);
            var current := Get(Get(Some(snap), "tournament"), "currentMatchIndex");
            !HasBadge(index, current) && StyleOf(index, current, m) != Current
  {
    Snapshot.SnapshotFields(gameState, round, t, match_, revealed, team1Score, team2Score, roundScore, strikes);
  }

  /** With the stored index written, exactly the card at that index is highlighted and badged. */
  lemma CorrectedSnapshotHighlightsCurrent(gameState: Tournaments.GameState, round: Round,
                                           t: Tournaments.Tournament, match_: Tournaments.Match, revealed: seq<bool>,
                                           team1Score: int, team2Score: int, roundScore: int, strikes: int,
                                           index: nat, m: Prop)
    ensures var snap := Snapshot.CorrectedSnapshotJson(gameState, round, t, match_, revealed, team1Score, team2Score, roundScore, strikes);
            var current := Get(Get(Some(snap), "tournament"), "currentMatchIndex");
            (HasBadge(index, current) <==> index == t.storedMatchIndex) &&
            (StyleOf(index, current, m) == Current <==> index == t.storedMatchIndex)
  {
    Snapshot.CorrectedSnapshotFields(gameState, round, t, match_, revealed, team1Score, team2Score, roundScore, strikes, 20);
  }
}

