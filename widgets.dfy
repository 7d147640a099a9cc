/**
 * The control page's three game widgets, as functions of the host's state: the game-controls
 * card (round pool, overall score, Next Round, Strike), the team-scores card (one panel per
 * team, the pass-or-play prompt) and the question card (one row per answer with its action).
 */
module Widgets {
  import opened Wrappers
  import opened GameUtils
  import opened Tournaments
  import opened Control
  import Display

  /** A number on screen: fixed, or a count-up animation between two values. */
  datatype Counter = Fixed(value: int) | Counting(from: int, to: int)

  // ---------------------------------------------------------------------------------------
  // GameControlsCard

  /** "Overall": the current team's score; team 2's is read as 0 when absent, and team 1 is the default. */
  function OverallScore(currentTeam: Option<Side>, team1Score: int, team2Score: Option<int>): (s: int)
    ensures currentTeam == Some(Team2) ==> s == team2Score.GetOr(0)
    ensures currentTeam != Some(Team2) ==> s == team1Score
  {
    if currentTeam == Some(Team2) then team2Score.GetOr(0) else team1Score
  }

  /** The round pool: counting from the pool to pool + animatingScore while the award animation runs. */
  function PoolCounter(h: Host): Counter {
    if h.showScoreAnimation then Counting(h.roundScore, h.roundScore + h.animatingScore)
    else Fixed(h.roundScore)
  }

  /** Next Round is disabled exactly when the host's next-round handler has no round to go to. */
  function NextRoundDisabled(r: Round): (disabled: bool)
    ensures disabled <==> NextRoundOf(r).None?
  {
    r == Tiebreaker
  }

  /**
   * The card as the control page renders it: the overall score is the current team's, and Next
   * Round is enabled exactly when pressing it moves the round on.
   */
  lemma ControlsCardReflectsHost(h: Host)
    ensures OverallScore(Some(h.currentTeam), h.team1Score, Some(h.team2Score)) ==
              if h.currentTeam == Team1 then h.team1Score else h.team2Score
    ensures !NextRoundDisabled(h.currentRound) <==> NextRoundStep(h).currentRound != h.currentRound
  {
    NextRoundEffect(h);
  }

  /**
   * Pressing Award Points with no award pending: the pool counter runs from the pool to twice
   * the pool (the captured pool is added to itself), and once the timer fires the overall score
   * has grown by the pool, for whichever team was current, and the pool shows 0.
   */
  lemma AwardPointsOnControlsCard(h: Host)
    requires |h.pendingAwards| == 0
    ensures PoolCounter(StartAward(h)) == Counting(h.roundScore, 2 * h.roundScore)
    ensures var done := FinishAward(StartAward(h));
            OverallScore(Some(done.currentTeam), done.team1Score, Some(done.team2Score)) ==
              OverallScore(Some(h.currentTeam), h.team1Score, Some(h.team2Score)) + h.roundScore &&
            PoolCounter(done) == Fixed(0)
  {
    var s := StartAward(h);
    assert s.pendingAwards[0] == PendingAward(h.currentTeam, h.roundScore);
  }

  // ---------------------------------------------------------------------------------------
  // TeamScoresCard

  /** One team's panel: name, score, the "+N" of the current round, the ring and the pass-or-play prompt. */
  datatype Panel = Panel(name: string, score: Counter, roundPoints: int, ringed: bool, passOrPlay: bool)

  /** `currentTournament?.teams[i]?.name || "Team i+1"`. */
  function TeamName(t: Option<Tournament>, i: nat): (name: string)
    ensures name != ""
    ensures t.Some? && i < |t.value.teams| && t.value.teams[i].name != "" ==> name == t.value.teams[i].name
  {
    if t.Some? && i < |t.value.teams| && t.value.teams[i].name != "" then t.value.teams[i].name
    else if i == 0 then "Team 1" else "Team 2"
  }

  /** Team 1's panel: its score counts up by the animating amount. */
  function Team1Panel(h: Host): Panel {
    Panel(TeamName(h.currentTournament, 0),
          if h.showScoreAnimation then Counting(h.team1Score, h.team1Score + h.animatingScore) else Fixed(h.team1Score),
          if h.currentTeam == Team1 then h.roundScore else 0,
          h.currentTeam == Team1, h.showPlayPass && h.currentTeam == Team1)
  }

  /** Team 2's panel: its score is always drawn as it stands. */
  function Team2Panel(h: Host): Panel {
    Panel(TeamName(h.currentTournament, 1), Fixed(h.team2Score),
          if h.currentTeam == Team2 then h.roundScore else 0,
          h.currentTeam == Team2, h.showPlayPass && h.currentTeam == Team2)
  }

  function PanelOf(h: Host, s: Side): Panel {
    if s == Team1 then Team1Panel(h) else Team2Panel(h)
  }

  /**
   * Exactly one panel, the current team's, is ringed and carries the round pool; the other shows
   * +0; the pass-or-play prompt appears on the current team's panel exactly when it is raised,
   * and never on the other.
   */
  lemma PanelsFollowCurrentTeam(h: Host)
    ensures PanelOf(h, h.currentTeam).ringed && !PanelOf(h, Other(h.currentTeam)).ringed
    ensures PanelOf(h, h.currentTeam).roundPoints == h.roundScore
    ensures PanelOf(h, Other(h.currentTeam)).roundPoints == 0
    ensures PanelOf(h, h.currentTeam).passOrPlay <==> h.showPlayPass
    ensures !PanelOf(h, Other(h.currentTeam)).passOrPlay
  {
  }

  /**
   * The panel buttons: Activate raises the prompt on the other team's panel (it switches team
   * after raising it); Play takes the prompt down and keeps the ring; Pass takes it down and
   * moves the ring and the pool to the other team.
   */
  lemma PanelButtons(h: Host)
    ensures var a := SwitchTeamStep(ActivatePromptStep(h));
            PanelOf(a, Other(h.currentTeam)).passOrPlay && !PanelOf(a, h.currentTeam).passOrPlay
    ensures var p := PlayStep(h);
            PanelOf(p, h.currentTeam).ringed && !PanelOf(p, Team1).passOrPlay && !PanelOf(p, Team2).passOrPlay
    ensures var p := PassStep(h);
            PanelOf(p, Other(h.currentTeam)).ringed && PanelOf(p, Other(h.currentTeam)).roundPoints == h.roundScore &&
            !PanelOf(p, Team1).passOrPlay && !PanelOf(p, Team2).passOrPlay
  {
    ActivateButtonEffect(h);
    PlayAndPass(h);
  }

  /**
   * While an award animates, team 1's counter always counts up by the pool, whichever team is
   * in control: it ends at the score the timer gives team 1 when team 1 is credited, and
   * overshoots team 1's unchanged score when team 2 is. Team 2's panel keeps showing its stored
   * score until the timer fires.
   */
  lemma AwardAnimationPerPanel(h: Host)
    requires |h.pendingAwards| == 0
    ensures var s := StartAward(h);
            var done := FinishAward(s);
            (h.currentTeam == Team1 ==> Team1Panel(s).score == Counting(h.team1Score, done.team1Score)) &&
            (h.currentTeam == Team2 ==> Team1Panel(s).score == Counting(h.team1Score, h.team1Score + h.roundScore) &&
                                        done.team1Score == h.team1Score) &&
            Team2Panel(s).score == Fixed(h.team2Score) &&
            Team2Panel(done).score == Fixed(done.team2Score)
  {
    var s := StartAward(h);
    assert s.pendingAwards[0] == PendingAward(h.currentTeam, h.roundScore);
  }

  // ---------------------------------------------------------------------------------------
  // QuestionCard

  /** A row's button: Reveal, or "Add to <team>" once the answer is revealed; each carries its row's index. */
  datatype RowAction = RevealButton(index: nat) | AddButton(index: nat, team: string)

  /** A row: the answer, its raw points on the badge, the highlight, and its button. */
  datatype Row = Row(text: string, badge: int, highlighted: bool, action: RowAction)

  /** The question line: the round's question, or "No question set." when there is none or it is empty. */
  function QuestionLine(m: Option<Match>, round: Round): (line: string)
    ensures line != ""
    ensures m.Some? && QuestionFor(m.value.questions, round).Some? &&
            QuestionFor(m.value.questions, round).value.question != "" ==>
              line == QuestionFor(m.value.questions, round).value.question
  {
    if m.Some? && QuestionFor(m.value.questions, round).Some? &&
       QuestionFor(m.value.questions, round).value.question != ""
    then QuestionFor(m.value.questions, round).value.question
    else "No question set."
  }

  /** The "Add to" label: the current team's name. */
  function CurrentTeamLabel(h: Host): string {
    TeamName(h.currentTournament, if h.currentTeam == Team1 then 0 else 1)
  }

  function RowOf(a: Answer, i: nat, revealed: seq<bool>, team: string): Row {
    var shown := Display.Revealed(revealed, i);
    Row(a.text, a.points, shown, if shown then AddButton(i, team) else RevealButton(i))
  }

  /** The card's rows, one per answer of the round's question. */
  function Rows(answers: seq<Answer>, revealed: seq<bool>, team: string): (rows: seq<Row>)
    ensures |rows| == |answers|
    ensures forall i :: 0 <= i < |rows| ==>
              rows[i].text == answers[i].text && rows[i].badge == answers[i].points &&
              (rows[i].highlighted <==> i < |revealed| && revealed[i]) &&
              rows[i].action.index == i &&
              (rows[i].action.AddButton? <==> rows[i].highlighted)
  {
    seq(|answers|, i requires 0 <= i < |answers| => RowOf(answers[i], i, revealed, team))
  }

  /** The rows of the host's current question. */
  function HostRows(h: Host): seq<Row> {
    Rows(RoundAnswers(h.currentMatch, h.currentRound), h.revealedAnswers, CurrentTeamLabel(h))
  }

  /**
   * Reveal on row i highlights that row and turns its button into "Add to", leaving every other
   * row as it was; the pool does not change.
   */
  lemma {:induction false} RevealButtonEffect(h: Host, i: nat)
    requires i < |HostRows(h)|
    requires HostRows(h)[i].action == RevealButton(i)
    ensures var after := HostRows(RevealStep(h, i));
            |after| == |HostRows(h)| && after[i].highlighted && after[i].action.AddButton? &&
            (forall j :: 0 <= j < |after| && j != i ==> after[j] == HostRows(h)[j]) &&
            RevealStep(h, i).roundScore == h.roundScore
  {
    var before := HostRows(h);
    var after := HostRows(RevealStep(h, i));
    var r' := Reveal(h.revealedAnswers, i);
    forall j | 0 <= j < |after| && j != i
      ensures after[j] == before[j]
    {
      assert Display.Revealed(r', j) == Display.Revealed(h.revealedAnswers, j);
    }
  }

  /**
   * "Add to" on a row adds that answer's badge value (its raw points) to the pool and changes no
   * row, so the same row can be added again.
   */
  lemma AddButtonEffect(h: Host, i: nat)
    requires i < |HostRows(h)|
    ensures AwardAnswerStep(h, i).roundScore == h.roundScore + HostRows(h)[i].badge
    ensures HostRows(AwardAnswerStep(h, i)) == HostRows(h)
  {
  }
}
