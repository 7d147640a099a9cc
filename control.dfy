/**
 * The host's control page: the game state it drives, the scoring rules of its buttons, and the
 * tournament it edits. Each handler is a step function on the host's whole state (`Host`); the
 * `FamilyFeudControl` class holds that state in fields and its methods are proved to move it by
 * exactly those steps, writing the overlay flags and the snapshot to the shared store.
 */
module Control {
  import opened Wrappers
  import opened JsonValue
  import opened Text
  import opened GameUtils
  import opened Tournaments
  import Snapshot
  import Storage

  datatype Side = Team1 | Team2

  function Other(s: Side): Side {
    if s == Team1 then Team2 else Team1
  }

  /** An award the 2-second timer of `awardPoints` will credit: the team and the pool captured at the press. */
  datatype PendingAward = PendingAward(team: Side, points: int)

  /** Everything the control page keeps in its state hooks that the game rules touch. */
  datatype Host = Host(
    currentGameState: GameState,
    currentRound: Round,
    team1Score: int,
    team2Score: int,
    roundScore: int,
    strikes: int,
    showScoreAnimation: bool,
    animatingScore: int,
    pendingAwards: seq<PendingAward>,
    revealedAnswers: seq<bool>,
    currentTeam: Side,
    showPlayPass: bool,
    currentTournament: Option<Tournament>,
    currentMatch: Option<Match>,
    tournamentTeams: seq<TeamConfig>,
    selectedMatchForQuestions: Option<Match>,
    broadcasts: seq<GameState>,
    tournaments: seq<Tournament>)

  /** The state the page mounts with. */
  const InitialHost := Host(Idle, R1, 0, 0, 0, 0, false, 0, [], [], Team1, false, None, None,
                            DefaultTeams, None, [], [])

  /** What every handler keeps: at most three strikes, and at least the two default teams in the form. */
  predicate Valid(h: Host) {
    0 <= h.strikes <= 3 && |h.tournamentTeams| >= 2
  }

  // ---------------------------------------------------------------------------------------
  // Rounds

  /** The position of a round in a match: 1 to 4, then 5 for the tie breaker. */
  function RoundNumber(r: Round): nat {
    match r
    case R1 => 1
    case R2 => 2
    case R3 => 3
    case R4 => 4
    case Tiebreaker => 5
  }

  /** `nextRoundMap`: 1 → 2 → 3 → 4 → tiebreaker, and nothing after the tie breaker. */
  function NextRoundOf(r: Round): (n: Option<Round>)
    ensures n.None? <==> r == Tiebreaker
    ensures n.Some? ==> RoundNumber(n.value) == RoundNumber(r) + 1
  {
    match r
    case R1 => Some(R2)
    case R2 => Some(R3)
    case R3 => Some(R4)
    case R4 => Some(Tiebreaker)
    case Tiebreaker => None
  }

  /** The round after k presses of Next Round. */
  function Advance(r: Round, k: nat): Round
    decreases k
  {
    if k == 0 then r
    else match NextRoundOf(r)
      case None => r
      case Some(n) => Advance(n, k - 1)
  }

  /** Every round reaches the tie breaker after 5 - its position presses and stays there. */
  lemma {:induction false} AdvanceReachesTiebreaker(r: Round, k: nat)
    ensures k >= 5 - RoundNumber(r) ==> Advance(r, k) == Tiebreaker
    ensures k < 5 - RoundNumber(r) ==> RoundNumber(Advance(r, k)) == RoundNumber(r) + k
    decreases k
  {
    if k > 0 && r != Tiebreaker {
      AdvanceReachesTiebreaker(NextRoundOf(r).value, k - 1);
    }
  }

  // ---------------------------------------------------------------------------------------
  // Strikes

  /** `Math.min(3, prev + 1)`. */
  function StrikeAfter(prev: int): (s: int)
    ensures s <= 3
    ensures prev < 3 ==> s == prev + 1
    ensures prev >= 2 ==> s == 3
    ensures 0 <= prev <= 3 ==> 0 < s <= 3 && s >= prev
  {
    if prev + 1 < 3 then prev + 1 else 3
  }

  function StrikesAfter(prev: int, k: nat): int {
    if k == 0 then prev else StrikeAfter(StrikesAfter(prev, k - 1))
  }

  /** From a count in [0, 3], any run of strikes stays in [0, 3], and three or more strikes reach 3 and stay there. */
  lemma {:induction false} StrikesSaturate(prev: int, k: nat)
    requires 0 <= prev <= 3
    ensures 0 <= StrikesAfter(prev, k) <= 3
    ensures k >= 3 ==> StrikesAfter(prev, k) == 3
    ensures k < 3 ==> StrikesAfter(prev, k) == if prev + k < 3 then prev + k else 3
  {
    if k > 0 {
      StrikesSaturate(prev, k - 1);
    }
  }

  // ---------------------------------------------------------------------------------------
  // Revealed answers

  /** `[...revealed]` with index i set true; an index past the end pads with holes, which read as false. */
  function Reveal(revealed: seq<bool>, i: nat): (r: seq<bool>)
    ensures |r| == if i < |revealed| then |revealed| else i + 1
    ensures r[i]
    ensures forall j :: 0 <= j < |r| && j != i ==> r[j] == (j < |revealed| && revealed[j])
  {
    if i < |revealed| then revealed[i := true]
    else revealed + seq(i - |revealed|, _ => false) + [true]
  }

  /** Revealing again changes nothing, and two reveals give the same board in either order. */
  lemma RevealIdempotentAndCommutes(revealed: seq<bool>, i: nat, j: nat)
    ensures Reveal(Reveal(revealed, i), i) == Reveal(revealed, i)
    ensures Reveal(Reveal(revealed, i), j) == Reveal(Reveal(revealed, j), i)
  {
    var a := Reveal(Reveal(revealed, i), j);
    var b := Reveal(Reveal(revealed, j), i);
    assert |a| == |b|;
    assert forall k :: 0 <= k < |a| ==> a[k] == b[k];
  }

  /** `Array(n).fill(false)`. */
  function AllHidden(n: nat): (r: seq<bool>)
    ensures |r| == n && forall j :: 0 <= j < n ==> !r[j]
  {
    seq(n, _ => false)
  }

  /** The answers of the current match's question for the round, none without one. */
  function RoundAnswers(m: Option<Match>, round: Round): seq<Answer> {
    if m.None? then []
    else
      var q := QuestionFor(m.value.questions, round);
      if q.None? then [] else q.value.answers
  }

  /** The pool after "Add to team" on row idx: the answer's raw points, when the row exists. */
  function PoolAfterAward(pool: int, answers: seq<Answer>, idx: int): int {
    if 0 <= idx < |answers| then pool + answers[idx].points else pool
  }

  /**
   * Adding an answer credits its raw points, not points × the round's multiplier, and pressing
   * twice credits it twice; a row past the answers adds nothing.
   */
  lemma AwardAnswerRawAndRepeatable(pool: int, answers: seq<Answer>, idx: int, round: Round)
    ensures 0 <= idx < |answers| ==>
              PoolAfterAward(pool, answers, idx) - pool == answers[idx].points &&
              PoolAfterAward(PoolAfterAward(pool, answers, idx), answers, idx) == pool + 2 * answers[idx].points
    ensures 0 <= idx < |answers| && answers[idx].points != 0 && round in {R2, R3, R4} ==>
              PoolAfterAward(pool, answers, idx) - pool != answers[idx].points * Multiplier(round)
    ensures !(0 <= idx < |answers|) ==> PoolAfterAward(pool, answers, idx) == pool
  {
  }

  // ---------------------------------------------------------------------------------------
  // Steps of the host's state, one per handler

  function ChangeState(h: Host, s: GameState): Host {
    var t := if h.currentMatch.Some? && h.currentTournament.Some? then
        var tt := h.currentTournament.value;
        Some(tt.(matches := SetMatchState(tt.matches, h.currentMatch.value.id, s)))
      else h.currentTournament;
    h.(currentGameState := s, currentTournament := t, broadcasts := h.broadcasts + [s])
  }

  function NextRoundStep(h: Host): Host {
    match NextRoundOf(h.currentRound)
    case None => h
    case Some(n) =>
      var t := if h.currentMatch.Some? && h.currentTournament.Some? then
          var tt := h.currentTournament.value;
          Some(tt.(matches := SetMatchRound(tt.matches, h.currentMatch.value.id, n)))
        else h.currentTournament;
      h.(currentRound := n, currentTournament := t)
  }

  /** The press of Award Points: animation on and the pool captured for the timer. */
  function StartAward(h: Host): Host {
    h.(showScoreAnimation := true, animatingScore := h.roundScore,
       pendingAwards := h.pendingAwards + [PendingAward(h.currentTeam, h.roundScore)])
  }

  /** The timer of the oldest press: the captured pool goes to the captured team, the pool empties, the animation stops. */
  function FinishAward(h: Host): Host
    requires |h.pendingAwards| > 0
  {
    var a := h.pendingAwards[0];
    h.(team1Score := if a.team == Team1 then h.team1Score + a.points else h.team1Score,
       team2Score := if a.team == Team2 then h.team2Score + a.points else h.team2Score,
       roundScore := 0, showScoreAnimation := false, pendingAwards := h.pendingAwards[1..])
  }

  function RevealStep(h: Host, i: nat): Host {
    h.(revealedAnswers := Reveal(h.revealedAnswers, i))
  }

  function StrikeStep(h: Host): Host {
    h.(strikes := StrikeAfter(h.strikes))
  }

  function ResetStrikesStep(h: Host): Host {
    h.(strikes := 0)
  }

  function PlayStep(h: Host): Host {
    h.(showPlayPass := false, currentGameState := GamePlay)
  }

  function PassStep(h: Host): Host {
    h.(showPlayPass := false, currentTeam := Other(h.currentTeam), currentGameState := GamePlay)
  }

  function SwitchTeamStep(h: Host): Host {
    h.(currentTeam := Other(h.currentTeam))
  }

  function ActivatePromptStep(h: Host): Host {
    h.(showPlayPass := true)
  }

  function AwardAnswerStep(h: Host, idx: int): Host {
    h.(roundScore := PoolAfterAward(h.roundScore, RoundAnswers(h.currentMatch, h.currentRound), idx))
  }

  /** The effect on round or match change: all answers hidden, when the match has a question for the round. */
  function ResetRevealsStep(h: Host): Host {
    if h.currentMatch.Some? && QuestionFor(h.currentMatch.value.questions, h.currentRound).Some? then
      h.(revealedAnswers := AllHidden(|QuestionFor(h.currentMatch.value.questions, h.currentRound).value.answers|))
    else h
  }

  function CreateQuestionsStep(h: Host, matchId: string): Host {
    if h.currentTournament.None? then h
    else h.(currentTournament := Some(WithMatchQuestions(h.currentTournament.value, matchId)))
  }

  function EditQuestionStep(h: Host, matchId: string, round: Round, edit: QuestionEdit): Host {
    if h.currentTournament.None? then h
    else match EditQuestion(h.currentTournament.value, matchId, round, edit)
      case None => h
      case Some(t) =>
        h.(currentTournament := Some(t),
           selectedMatchForQuestions := Some(t.matches[MatchIndex(h.currentTournament.value.matches, matchId)]))
  }

  function AddTeamStep(h: Host): Host {
    h.(tournamentTeams := h.tournamentTeams + [NewTeam(|h.tournamentTeams|)])
  }

  function RemoveTeamStep(h: Host, index: int): Host {
    h.(tournamentTeams := RemoveTeam(h.tournamentTeams, index))
  }

  function UpdateTeamStep(h: Host, index: int, u: TeamUpdate): Host {
    var teams := UpdateTeam(h.tournamentTeams, index, u);
    h.(tournamentTeams := teams,
       currentTournament := if h.currentTournament.Some? then Some(h.currentTournament.value.(teams := teams)) else None)
  }

  function CompleteMatchStep(h: Host, matchId: string): Host {
    if h.currentTournament.None? then h
    else h.(currentTournament := Some(CompleteMatch(h.currentTournament.value, matchId)))
  }

  function CreateTournamentStep(h: Host, loggedIn: bool, name: string, mode: string,
                                created: Option<(string, string)>): Host
  {
    if !CanCreate(loggedIn, name, h.tournamentTeams) || created.None? then h
    else
      var matches := Schedule(h.tournamentTeams, mode);
      h.(currentTournament := Some(Tournament(created.value.0, name, mode, h.tournamentTeams, matches,
                                              Setup, created.value.1, 0)),
         currentMatch := if |matches| > 0 then Some(matches[0]) else None)
  }

  function LoadTournamentsStep(h: Host, data: seq<Tournament>): Host {
    if |data| == 0 then h.(tournaments := data)
    else
      var t := PickActive(data);
      if |t.matches| == 0 then h.(tournaments := data, currentTournament := Some(t))
      else
        var m := ResumeMatch(t);
        h.(tournaments := data, currentTournament := Some(t), currentMatch := Some(m),
           currentGameState := m.gameState)
  }

  // ---------------------------------------------------------------------------------------
  // What the steps promise

  /** Every game-play handler keeps the strike count in [0, 3] and the team form as it was. */
  lemma PlayStepsPreserveValid(h: Host, s: GameState, i: nat, idx: int)
    requires Valid(h)
    ensures Valid(ChangeState(h, s)) && Valid(NextRoundStep(h)) && Valid(StartAward(h))
    ensures |h.pendingAwards| > 0 ==> Valid(FinishAward(h))
    ensures Valid(RevealStep(h, i)) && Valid(StrikeStep(h)) && Valid(ResetStrikesStep(h))
    ensures Valid(PlayStep(h)) && Valid(PassStep(h)) && Valid(SwitchTeamStep(h)) && Valid(ActivatePromptStep(h))
    ensures Valid(AwardAnswerStep(h, idx)) && Valid(ResetRevealsStep(h))
    ensures ChangeState(h, s).tournamentTeams == NextRoundStep(h).tournamentTeams == StartAward(h).tournamentTeams
            == RevealStep(h, i).tournamentTeams == StrikeStep(h).tournamentTeams
            == ResetStrikesStep(h).tournamentTeams == PlayStep(h).tournamentTeams == PassStep(h).tournamentTeams
            == SwitchTeamStep(h).tournamentTeams == ActivatePromptStep(h).tournamentTeams
            == AwardAnswerStep(h, idx).tournamentTeams == ResetRevealsStep(h).tournamentTeams == h.tournamentTeams
    ensures |h.pendingAwards| > 0 ==> FinishAward(h).tournamentTeams == h.tournamentTeams
  {
  }

  /** Every team-form handler keeps at least two teams: removal stops at two, updates keep the count. */
  lemma TeamStepsPreserveValid(h: Host, index: int, u: TeamUpdate)
    requires Valid(h)
    ensures Valid(AddTeamStep(h)) && Valid(RemoveTeamStep(h, index)) && Valid(UpdateTeamStep(h, index, u))
    ensures |RemoveTeamStep(h, index).tournamentTeams| >= |h.tournamentTeams| - 1
  {
  }

  /**
   * Updating a team merges the update into the form's list and then puts that whole list in
   * place of the current tournament's teams, whatever teams the tournament had; nothing else
   * of the tournament changes.
   */
  lemma UpdateTeamReplacesTournamentTeams(h: Host, index: int, u: TeamUpdate)
    ensures var r := UpdateTeamStep(h, index, u);
            r.tournamentTeams == UpdateTeam(h.tournamentTeams, index, u) &&
            (h.currentTournament.None? ==> r.currentTournament.None?) &&
            (h.currentTournament.Some? ==>
               r.currentTournament.Some? && r.currentTournament.value.teams == r.tournamentTeams &&
               |r.currentTournament.value.teams| == |h.tournamentTeams| &&
               r.currentTournament.value.(teams := h.currentTournament.value.teams) == h.currentTournament.value)
  {
  }

  /** The tournament handlers leave the strike count and the team form alone. */
  lemma TournamentStepsPreserveValid(h: Host, matchId: string, round: Round, edit: QuestionEdit,
                                     data: seq<Tournament>, loggedIn: bool, name: string, mode: string,
                                     created: Option<(string, string)>)
    requires Valid(h)
    ensures Valid(CreateQuestionsStep(h, matchId))
    ensures Valid(EditQuestionStep(h, matchId, round, edit))
    ensures Valid(CompleteMatchStep(h, matchId))
    ensures Valid(LoadTournamentsStep(h, data))
    ensures Valid(CreateTournamentStep(h, loggedIn, name, mode, created))
  {
  }

  /** The initial state is valid. */
  lemma InitialHostValid()
    ensures Valid(InitialHost)
  {
  }

  /**
   * Next Round moves 1 → 2 → 3 → 4 → tiebreaker, changing the round of the current match's
   * entry and nothing else in the tournament; at the tie breaker it does nothing.
   */
  lemma NextRoundEffect(h: Host)
    ensures h.currentRound == Tiebreaker ==> NextRoundStep(h) == h
    ensures h.currentRound != Tiebreaker ==>
              RoundNumber(NextRoundStep(h).currentRound) == RoundNumber(h.currentRound) + 1
    ensures h.currentRound != Tiebreaker && h.currentMatch.Some? && h.currentTournament.Some? ==>
              var old_t := h.currentTournament.value;
              var new_t := NextRoundStep(h).currentTournament.value;
              var k := MatchIndex(old_t.matches, h.currentMatch.value.id);
              new_t.(matches := old_t.matches) == old_t &&
              |new_t.matches| == |old_t.matches| &&
              forall i :: 0 <= i < |old_t.matches| ==>
                new_t.matches[i] == if i == k then old_t.matches[i].(currentRound := NextRoundStep(h).currentRound)
                                    else old_t.matches[i]
    ensures NextRoundStep(h).(currentRound := h.currentRound, currentTournament := h.currentTournament) == h
  {
    if h.currentRound != Tiebreaker && h.currentMatch.Some? && h.currentTournament.Some? {
      SetMatchFieldEffect(h.currentTournament.value.matches, h.currentMatch.value.id, Idle,
                          NextRoundOf(h.currentRound).value);
    }
  }

  /**
   * Changing the state sets it, broadcasts it, and records it on the current match's entry;
   * nothing else changes.
   */
  lemma ChangeStateEffect(h: Host, s: GameState)
    ensures ChangeState(h, s).currentGameState == s
    ensures ChangeState(h, s).broadcasts == h.broadcasts + [s]
    ensures h.currentMatch.Some? && h.currentTournament.Some? ==>
              var k := MatchIndex(h.currentTournament.value.matches, h.currentMatch.value.id);
              k != -1 ==> ChangeState(h, s).currentTournament.value.matches[k].gameState == s
    ensures h.currentMatch.None? || h.currentTournament.None? ==>
              ChangeState(h, s).currentTournament == h.currentTournament
    ensures ChangeState(h, s).(currentGameState := h.currentGameState, currentTournament := h.currentTournament,
                               broadcasts := h.broadcasts) == h
  {
  }

  /**
   * Award Points credits the pool captured at the press to the team that had control at the
   * press, empties the pool and leaves the other team's score as it was.
   */
  lemma AwardCreditsCapturedTeam(h: Host)
    requires h.pendingAwards == []
    ensures var after := FinishAward(StartAward(h));
            after.roundScore == 0 && !after.showScoreAnimation && after.pendingAwards == [] &&
            (h.currentTeam == Team1 ==> after.team1Score == h.team1Score + h.roundScore &&
                                        after.team2Score == h.team2Score) &&
            (h.currentTeam == Team2 ==> after.team2Score == h.team2Score + h.roundScore &&
                                        after.team1Score == h.team1Score) &&
            after.team1Score + after.team2Score == h.team1Score + h.team2Score + h.roundScore
  {
  }

  /**
   * The timer uses what it captured: a team switch or further answers added during the 2
   * seconds do not change what is credited, and the pool, with whatever was added, is zeroed.
   */
  lemma AwardUsesCapturedValues(h: Host, idx: int)
    requires h.pendingAwards == []
    ensures var mid := AwardAnswerStep(SwitchTeamStep(StartAward(h)), idx);
            var after := FinishAward(mid);
            after.roundScore == 0 &&
            after.team1Score == h.team1Score + (if h.currentTeam == Team1 then h.roundScore else 0) &&
            after.team2Score == h.team2Score + (if h.currentTeam == Team2 then h.roundScore else 0)
  {
  }

  /**
   * Pass hands control to the other team and Play keeps it; both clear the prompt and go to
   * game play without a broadcast and without touching the tournament.
   */
  lemma PlayAndPass(h: Host)
    ensures PassStep(h).currentTeam == Other(h.currentTeam) && PassStep(h).currentTeam != h.currentTeam
    ensures PlayStep(h).currentTeam == h.currentTeam
    ensures !PassStep(h).showPlayPass && !PlayStep(h).showPlayPass
    ensures PassStep(h).currentGameState == GamePlay && PlayStep(h).currentGameState == GamePlay
    ensures PassStep(h).broadcasts == h.broadcasts && PlayStep(h).broadcasts == h.broadcasts
    ensures PassStep(h).currentTournament == h.currentTournament && PlayStep(h).currentTournament == h.currentTournament
    ensures PassStep(h) == SwitchTeamStep(PlayStep(h))
  {
  }

  /** "Activate Pass or Play" shows the prompt and hands control to the other team; pressed twice, control comes back. */
  lemma ActivateButtonEffect(h: Host)
    ensures var a := SwitchTeamStep(ActivatePromptStep(h));
            a.showPlayPass && a.currentTeam == Other(h.currentTeam) &&
            a.(showPlayPass := h.showPlayPass, currentTeam := h.currentTeam) == h
    ensures SwitchTeamStep(ActivatePromptStep(SwitchTeamStep(ActivatePromptStep(h)))).currentTeam == h.currentTeam
  {
  }

  /** After the reset effect, a round with a question shows all of its answers hidden. */
  lemma ResetRevealsEffect(h: Host)
    ensures var r := ResetRevealsStep(h);
            var q := if h.currentMatch.Some? then QuestionFor(h.currentMatch.value.questions, h.currentRound) else None;
            (q.Some? ==> |r.revealedAnswers| == |q.value.answers| &&
                         forall j :: 0 <= j < |r.revealedAnswers| ==> !r.revealedAnswers[j]) &&
            (q.None? ==> r == h)
  {
  }

  /** A question edit records the edited match as the one selected in the question editor. */
  lemma EditQuestionSelectsMatch(h: Host, matchId: string, round: Round, edit: QuestionEdit)
    requires h.currentTournament.Some? && MatchIndex(h.currentTournament.value.matches, matchId) != -1
    ensures var r := EditQuestionStep(h, matchId, round, edit);
            var k := MatchIndex(h.currentTournament.value.matches, matchId);
            r.selectedMatchForQuestions.Some? &&
            r.selectedMatchForQuestions.value.id == matchId &&
            r.selectedMatchForQuestions.value == r.currentTournament.value.matches[k] &&
            QuestionFor(r.selectedMatchForQuestions.value.questions, round).Some?
  {
    var m := h.currentTournament.value.matches[MatchIndex(h.currentTournament.value.matches, matchId)];
    EditQuestionsEffect(m.questions, matchId, round, edit);
  }

  /** Creating a tournament needs a user, a non-blank name and two teams; it then plays the schedule's first match. */
  lemma CreateTournamentEffect(h: Host, loggedIn: bool, name: string, mode: string, created: Option<(string, string)>)
    ensures !CanCreate(loggedIn, name, h.tournamentTeams) ==> CreateTournamentStep(h, loggedIn, name, mode, created) == h
    ensures CanCreate(loggedIn, name, h.tournamentTeams) && created.Some? ==>
              var r := CreateTournamentStep(h, loggedIn, name, mode, created);
              r.currentTournament.Some? && r.currentTournament.value.status == Setup &&
              r.currentTournament.value.storedMatchIndex == 0 &&
              r.currentTournament.value.teams == h.tournamentTeams &&
              r.currentTournament.value.matches == Schedule(h.tournamentTeams, mode) &&
              (mode == "roundrobin" ==> r.currentMatch == Some(PairMatch(h.tournamentTeams, 0, 1))) &&
              (mode != "roundrobin" ==> r.currentMatch.None?)
  {
    if CanCreate(loggedIn, name, h.tournamentTeams) && created.Some? && mode == "roundrobin" {
      RoundRobinSchedule(h.tournamentTeams, mode);
      assert PairIndex(|h.tournamentTeams|, 0, 1) == 0;
    }
  }

  /**
   * Loading stores the whole list; a non-empty list makes the first in-progress tournament
   * (else the first one) current and resumes its indexed match and that match's state.
   */
  lemma LoadTournamentsEffect(h: Host, data: seq<Tournament>)
    ensures LoadTournamentsStep(h, data).tournaments == data
    ensures |data| == 0 ==> LoadTournamentsStep(h, data) == h.(tournaments := data)
    ensures |data| > 0 && (forall u :: u in data ==> u.status != Running) ==>
              LoadTournamentsStep(h, data).currentTournament == Some(data[0])
    ensures |data| > 0 && data[0].status == Running ==>
              LoadTournamentsStep(h, data).currentTournament == Some(data[0])
    ensures |data| > 0 ==>
              var r := LoadTournamentsStep(h, data);
              var t := r.currentTournament.value;
              r.currentTournament.Some? && t in data &&
              (|t.matches| > 0 ==> r.currentMatch == Some(ResumeMatch(t)) &&
                                   r.currentGameState == ResumeMatch(t).gameState) &&
              (|t.matches| == 0 ==> r.currentMatch == h.currentMatch &&
                                    r.currentGameState == h.currentGameState)
    ensures var r := LoadTournamentsStep(h, data);
            r.team1Score == h.team1Score && r.team2Score == h.team2Score &&
            r.strikes == h.strikes && r.tournamentTeams == h.tournamentTeams
  {
  }

  /**
   * `createTournament` ends by reloading the list (newest first). When the reload lists the
   * created tournament first, it stays current, with its first match, as long as nothing else
   * is in progress.
   */
  lemma CreateThenReloadKeeps(h: Host, name: string, mode: string, id: string, createdAt: string,
                              rest: seq<Tournament>)
    requires CanCreate(true, name, h.tournamentTeams)
    requires forall u :: u in rest ==> u.status != Running
    ensures var c := CreateTournamentStep(h, true, name, mode, Some((id, createdAt)));
            var r := LoadTournamentsStep(c, [c.currentTournament.value] + rest);
            r.currentTournament == c.currentTournament && r.currentMatch == c.currentMatch &&
            r.tournaments == [c.currentTournament.value] + rest
  {
    var c := CreateTournamentStep(h, true, name, mode, Some((id, createdAt)));
    CreateTournamentEffect(h, true, name, mode, Some((id, createdAt)));
    var t := c.currentTournament.value;
    var data := [t] + rest;
    assert forall u :: u in data ==> u.status != Running;
    LoadTournamentsEffect(c, data);
    assert PickActive(data) == t;
    if |t.matches| > 0 {
      assert ResumeMatch(t) == t.matches[0];
      assert c.currentMatch == Some(t.matches[0]);
    }
  }

  /** An in-progress tournament in the reload replaces the tournament just created. */
  lemma CreateThenReloadReplaced(h: Host, name: string, mode: string, id: string, createdAt: string,
                                 rest: seq<Tournament>)
    requires CanCreate(true, name, h.tournamentTeams)
    requires exists u :: u in rest && u.status == Running
    ensures var c := CreateTournamentStep(h, true, name, mode, Some((id, createdAt)));
            var r := LoadTournamentsStep(c, [c.currentTournament.value] + rest);
            r.currentTournament != c.currentTournament && r.currentTournament.value.status == Running
  {
    var c := CreateTournamentStep(h, true, name, mode, Some((id, createdAt)));
    var t := c.currentTournament.value;
    assert t.status == Setup;
    var data := [t] + rest;
    var u :| u in rest && u.status == Running;
    assert u in data;
    assert PickActive(data).status == Running;
  }

  // ---------------------------------------------------------------------------------------
  // The page

  /** `localStorage` after Next Round: a round marked done is unmarked and its answers hidden again. */
  function RoundDoneCleared(items: map<string, string>): map<string, string> {
    if Storage.RoundDoneKey in items && items[Storage.RoundDoneKey] == "true" then
      items[Storage.ShowAllAnswersKey := "false"][Storage.RoundDoneKey := "false"]
    else items
  }

  class FamilyFeudControl {
    var currentGameState: GameState
    var currentRound: Round
    var team1Score: int
    var team2Score: int
    var roundScore: int
    var strikes: int
    var showScoreAnimation: bool
    var animatingScore: int
    var pendingAwards: seq<PendingAward>
    var revealedAnswers: seq<bool>
    var currentTeam: Side
    var showPlayPass: bool
    var currentTournament: Option<Tournament>
    var currentMatch: Option<Match>
    var tournamentTeams: seq<TeamConfig>
    var selectedMatchForQuestions: Option<Match>
    var broadcasts: seq<GameState>
    var tournaments: seq<Tournament>
    const store: Storage.Store

    function State(): Host
      reads this
    {
      Host(currentGameState, currentRound, team1Score, team2Score, roundScore, strikes,
           showScoreAnimation, animatingScore, pendingAwards, revealedAnswers, currentTeam,
           showPlayPass, currentTournament, currentMatch, tournamentTeams,
           selectedMatchForQuestions, broadcasts, tournaments)
    }

    /** Writes every field from a state; the handlers below set only the fields their React setters set. */
    constructor (store: Storage.Store)
      ensures State() == InitialHost && this.store == store
    {
      this.store := store;
      currentGameState := Idle;
      currentRound := R1;
      team1Score := 0;
      team2Score := 0;
      roundScore := 0;
      strikes := 0;
      showScoreAnimation := false;
      animatingScore := 0;
      pendingAwards := [];
      revealedAnswers := [];
      currentTeam := Team1;
      showPlayPass := false;
      currentTournament := None;
      currentMatch := None;
      tournamentTeams := DefaultTeams;
      selectedMatchForQuestions := None;
      broadcasts := [];
      tournaments := [];
    }

    /** `changeGameState`. */
    method ChangeGameState(newState: GameState)
      modifies this
      ensures State() == ChangeState(old(State()), newState)
    {
      currentGameState := newState;
      if currentMatch.Some? && currentTournament.Some? {
        var t := currentTournament.value;
        var matchIndex := MatchIndex(t.matches, currentMatch.value.id);
        if matchIndex != -1 {
          t := t.(matches := t.matches[matchIndex := t.matches[matchIndex].(gameState := newState)]);
          currentTournament := Some(t);
        }
      }
      broadcasts := broadcasts + [newState];
    }

    /** `nextRound`. */
    method NextRound()
      modifies this, store
      ensures State() == NextRoundStep(old(State()))
      ensures store.items == if old(currentRound) == Tiebreaker then old(store.items) else RoundDoneCleared(old(store.items))
      ensures store.cookies == old(store.cookies)
    {
      if currentRound == Tiebreaker {
        return;
      }
      var newRound := NextRoundOf(currentRound).value;
      currentRound := newRound;
      if currentMatch.Some? && currentTournament.Some? {
        var t := currentTournament.value;
        var matchIndex := MatchIndex(t.matches, currentMatch.value.id);
        if matchIndex != -1 {
          t := t.(matches := t.matches[matchIndex := t.matches[matchIndex].(currentRound := newRound)]);
          currentTournament := Some(t);
        }
      }
      if store.GetItem(Storage.RoundDoneKey) == Some("true") {
        store.SetItem(Storage.ShowAllAnswersKey, "false");
        store.SetItem(Storage.RoundDoneKey, "false");
      }
    }

    /** `awardPoints`: the press, which schedules the 2-second credit. */
    method AwardPoints()
      modifies this
      ensures State() == StartAward(old(State()))
    {
      showScoreAnimation := true;
      animatingScore := roundScore;
      pendingAwards := pendingAwards + [PendingAward(currentTeam, roundScore)];
    }

    /** The 2-second timeout of the oldest pending award. */
    method AwardTimerFires()
      requires |pendingAwards| > 0
      modifies this
      ensures State() == FinishAward(old(State()))
    {
      var award := pendingAwards[0];
      pendingAwards := pendingAwards[1..];
      if award.team == Team1 {
        team1Score := team1Score + award.points;
      } else {
        team2Score := team2Score + award.points;
      }
      roundScore := 0;
      showScoreAnimation := false;
    }

    /** `revealAnswer`. */
    method RevealAnswer(answerIndex: nat)
      modifies this
      ensures State() == RevealStep(old(State()), answerIndex)
    {
      var newRevealedAnswers := revealedAnswers;
      if answerIndex < |newRevealedAnswers| {
        newRevealedAnswers := newRevealedAnswers[answerIndex := true];
      } else {
        newRevealedAnswers := newRevealedAnswers + seq(answerIndex - |newRevealedAnswers|, _ => false) + [true];
      }
      revealedAnswers := newRevealedAnswers;
    }

    /** The effect that hides every answer when the round or the match changes. */
    method ResetReveals()
      modifies this
      ensures State() == ResetRevealsStep(old(State()))
    {
      if currentMatch.Some? {
        var currentQ := QuestionFor(currentMatch.value.questions, currentRound);
        if currentQ.Some? {
          revealedAnswers := AllHidden(|currentQ.value.answers|);
        }
      }
    }

    /** `handleStrike`: one more strike, capped at 3, and the strike overlay raised. */
    method HandleStrike()
      modifies this, store
      ensures State() == StrikeStep(old(State()))
      ensures store.items == old(store.items)[Storage.StrikeOverlayKey := "true"]
      ensures store.cookies == old(store.cookies)
    {
      strikes := StrikeAfter(strikes);
      store.SetItem(Storage.StrikeOverlayKey, "true");
    }

    /** The Strike button of the controls card: the same cap, through `setStrikes`, with no overlay flag. */
    method StrikeButton()
      modifies this
      ensures State() == StrikeStep(old(State()))
    {
      strikes := StrikeAfter(strikes);
    }

    /** `onResetStrikes`: no strikes, and the strike overlay lowered. */
    method ResetStrikes()
      modifies this, store
      ensures State() == ResetStrikesStep(old(State()))
      ensures store.items == old(store.items)[Storage.StrikeOverlayKey := "false"]
      ensures store.cookies == old(store.cookies)
    {
      strikes := 0;
      store.SetItem(Storage.StrikeOverlayKey, "false");
    }

    /** `onPlay`. */
    method Play()
      modifies this, store
      ensures State() == PlayStep(old(State()))
      ensures store.items == old(store.items)[Storage.PassOrPlayOverlayKey := "false"]
      ensures store.cookies == old(store.cookies)
    {
      showPlayPass := false;
      currentGameState := GamePlay;
      store.SetItem(Storage.PassOrPlayOverlayKey, "false");
    }

    /** `onPass`. */
    method Pass()
      modifies this, store
      ensures State() == PassStep(old(State()))
      ensures store.items == old(store.items)[Storage.PassOrPlayOverlayKey := "false"]
      ensures store.cookies == old(store.cookies)
    {
      showPlayPass := false;
      currentTeam := Other(currentTeam);
      currentGameState := GamePlay;
      store.SetItem(Storage.PassOrPlayOverlayKey, "false");
    }

    /** `onSwitchTeam`. */
    method SwitchTeam()
      modifies this
      ensures State() == SwitchTeamStep(old(State()))
    {
      currentTeam := Other(currentTeam);
    }

    /** `onActivatePassOrPlay`. */
    method ActivatePassOrPlay()
      modifies this, store
      ensures State() == ActivatePromptStep(old(State()))
      ensures store.items == old(store.items)[Storage.PassOrPlayOverlayKey := "true"]
      ensures store.cookies == old(store.cookies)
    {
      showPlayPass := true;
      store.SetItem(Storage.PassOrPlayOverlayKey, "true");
    }

    /** The team card's "Activate Pass or Play" button: the prompt, then a team switch. */
    method ActivateButton()
      modifies this, store
      ensures State() == SwitchTeamStep(ActivatePromptStep(old(State())))
      ensures store.items == old(store.items)[Storage.PassOrPlayOverlayKey := "true"]
      ensures store.cookies == old(store.cookies)
    {
      ActivatePassOrPlay();
      SwitchTeam();
    }

    /** "Add to team" on answer row idx: the answer's points go to the round pool. */
    method AwardAnswer(idx: int)
      modifies this
      ensures State() == AwardAnswerStep(old(State()), idx)
    {
      var answers := RoundAnswers(currentMatch, currentRound);
      if 0 <= idx < |answers| {
        var answer := answers[idx];
        roundScore := roundScore + answer.points;
      }
    }

    /** `createMatchQuestions`. */
    method CreateMatchQuestions(matchId: string)
      modifies this
      ensures State() == CreateQuestionsStep(old(State()), matchId)
    {
      if currentTournament.None? {
        return;
      }
      var t := currentTournament.value;
      var matchIndex := MatchIndex(t.matches, matchId);
      if matchIndex == -1 {
        currentTournament := Some(t);
        return;
      }
      var questions := MatchQuestions(matchId);
      t := t.(matches := t.matches[matchIndex := t.matches[matchIndex].(questions := questions)]);
      currentTournament := Some(t);
    }

    /** `updateQuestionInTournament`. */
    method UpdateQuestionInTournament(matchId: string, round: Round, edit: QuestionEdit)
      modifies this
      ensures State() == EditQuestionStep(old(State()), matchId, round, edit)
    {
      ghost var h := State();
      if currentTournament.None? {
        return;
      }
      var t := currentTournament.value;
      var matchIndex := MatchIndex(t.matches, matchId);
      if matchIndex == -1 {
        return;
      }
      var m := t.matches[matchIndex];
      var questions := EditQuestionList(m.questions, matchId, round, edit);
      ghost var before := currentTournament.value;
      t := t.(matches := t.matches[matchIndex := m.(questions := questions)]);
      assert Some(t) == EditQuestion(before, matchId, round, edit);
      ghost var after := EditQuestionStep(h, matchId, round, edit);
      assert after == h.(currentTournament := Some(t), selectedMatchForQuestions := Some(t.matches[matchIndex]));
      currentTournament := Some(t);
      selectedMatchForQuestions := Some(t.matches[matchIndex]);
    }

    /** `addTournamentTeam`. */
    method AddTournamentTeam()
      modifies this
      ensures State() == AddTeamStep(old(State()))
    {
      tournamentTeams := tournamentTeams + [NewTeam(|tournamentTeams|)];
    }

    /** `removeTournamentTeam`. */
    method RemoveTournamentTeam(index: int)
      modifies this
      ensures State() == RemoveTeamStep(old(State()), index)
    {
      if |tournamentTeams| <= 2 {
        return;
      }
      tournamentTeams := RemoveTeam(tournamentTeams, index);
    }

    /** `updateTournamentTeam`. */
    method UpdateTournamentTeam(index: int, updates: TeamUpdate)
      modifies this
      ensures State() == UpdateTeamStep(old(State()), index, updates)
    {
      var updatedTeams := UpdateTeam(tournamentTeams, index, updates);
      tournamentTeams := updatedTeams;
      if currentTournament.Some? {
        currentTournament := Some(currentTournament.value.(teams := updatedTeams));
      }
    }

    /** `onCompleteMatch`. */
    method CompleteMatchById(matchId: string)
      modifies this
      ensures State() == CompleteMatchStep(old(State()), matchId)
    {
      if currentTournament.None? {
        return;
      }
      currentTournament := Some(CompleteMatch(currentTournament.value, matchId));
    }

    /**
     * `createTournament` once the backend has answered: `created` is the new row's id and
     * creation time, or None when the backend reported an error.
     */
    method CreateTournament(loggedIn: bool, name: string, mode: string, created: Option<(string, string)>)
      modifies this
      ensures State() == CreateTournamentStep(old(State()), loggedIn, name, mode, created)
    {
      if !loggedIn || IsBlank(name) || |tournamentTeams| < 2 {
        return;
      }
      var matches := GenerateMatches(tournamentTeams, mode);
      if created.None? {
        return;
      }
      currentTournament := Some(Tournament(created.value.0, name, mode, tournamentTeams, matches,
                                           Setup, created.value.1, 0));
      currentMatch := if |matches| > 0 then Some(matches[0]) else None;
    }

    /** `loadUserTournaments` once the backend has answered with the user's tournaments. */
    method LoadUserTournaments(data: seq<Tournament>)
      modifies this
      ensures State() == LoadTournamentsStep(old(State()), data)
    {
      tournaments := data;
      if |data| == 0 {
        return;
      }
      var activeTournament := PickActive(data);
      currentTournament := Some(activeTournament);
      if |activeTournament.matches| > 0 {
        var m := ResumeMatch(activeTournament);
        currentMatch := Some(m);
        currentGameState := m.gameState;
      }
    }

    /**
     * The save effect: with a tournament and a match, the snapshot is written to local storage
     * and, URI-encoded, to the cookie of the same name.
     */
    method SaveSnapshot(stringify: Json -> string, encode: string -> string)
      modifies store
      ensures currentTournament.None? || currentMatch.None? ==> unchanged(store)
      ensures currentTournament.Some? && currentMatch.Some? ==>
                var text := stringify(Snapshot.SnapshotJson(currentGameState, currentRound, currentTournament.value,
                                                           currentMatch.value, revealedAnswers, team1Score,
                                                           team2Score, roundScore, strikes));
                store.items == old(store.items)[Storage.GameStateKey := text] &&
                store.cookies == Storage.SetInJar(old(store.cookies), Storage.GameStateKey, encode(text))
    {
      if currentTournament.Some? && currentMatch.Some? {
        var gameState := Snapshot.SnapshotJson(currentGameState, currentRound, currentTournament.value,
                                               currentMatch.value, revealedAnswers, team1Score,
                                               team2Score, roundScore, strikes);
        var text := stringify(gameState);
        store.SetItem(Storage.GameStateKey, text);
        store.SetCookie(Storage.GameStateKey, encode(text));
      }
    }
  }
}
