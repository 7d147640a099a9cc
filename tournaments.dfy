/**
 * The control page's tournament records and the pure rules it applies to them: finding a
 * match or question, round-robin scheduling, the five blank questions of a match, editing one
 * question, completing a match, and adding, removing and editing teams.
 */
module Tournaments {
  import opened Wrappers
  import opened Text
  import opened GameUtils

  /** The twelve states the host can put the show in. */
  datatype GameState =
    | Idle | TournamentStart | BracketShow | TeamVs | RoundStart | GamePlay | PassOrPlay
    | RoundEndReveal | PostRoundScoring | MatchWinner | BracketUpdate | TournamentWinner

  /** The string each state travels as, in broadcasts and in the snapshot. */
  function StateName(g: GameState): string {
    match g
    case Idle => "idle"
    case TournamentStart => "tournament-start"
    case BracketShow => "bracket-show"
    case TeamVs => "team-vs"
    case RoundStart => "round-start"
    case GamePlay => "game-play"
    case PassOrPlay => "pass-or-play"
    case RoundEndReveal => "round-end-reveal"
    case PostRoundScoring => "post-round-scoring"
    case MatchWinner => "match-winner"
    case BracketUpdate => "bracket-update"
    case TournamentWinner => "tournament-winner"
  }

  datatype TeamConfig = TeamConfig(
    name: string, primaryColor: string, secondaryColor: string, icon: string,
    iconUrl: Option<string>, logo: Option<string>, motto: Option<string>)

  datatype Answer = Answer(text: string, points: int)

  datatype MatchQuestion = MatchQuestion(
    id: string, round: Round, question: string, answers: seq<Answer>,
    category: string, difficulty: string)

  datatype MatchStatus = Pending | InProgress | Completed

  datatype Match = Match(
    id: string, team1Id: string, team2Id: string, winnerId: Option<string>,
    score1: Option<int>, score2: Option<int>, status: MatchStatus,
    questions: seq<MatchQuestion>, currentRound: Round, currentQuestionIndex: int,
    gameState: GameState)

  datatype TournamentStatus = Setup | Running | Finished

  /**
   * A tournament as the backend row the control page holds. Its match index is the row's
   * `current_match_index`; the row has no `currentMatchIndex` member.
   */
  datatype Tournament = Tournament(
    id: string, name: string, mode: string, teams: seq<TeamConfig>, matches: seq<Match>,
    status: TournamentStatus, createdAt: string, storedMatchIndex: int)

  // ---------------------------------------------------------------------------------------
  // Array.prototype.findIndex

  /** The first index whose element satisfies `p`, or -1. */
  function FindIndex<T>(s: seq<T>, p: T -> bool): (k: int)
    ensures -1 <= k < |s|
    ensures k == -1 <==> forall i :: 0 <= i < |s| ==> !p(s[i])
    ensures k != -1 ==> p(s[k]) && forall i :: 0 <= i < k ==> !p(s[i])
  {
    if |s| == 0 then -1
    else if p(s[0]) then 0
    else
      var k := FindIndex(s[1..], p);
      assert forall i :: 1 <= i < |s| ==> s[i] == s[1..][i - 1];
      if k == -1 then -1 else k + 1
  }

  function MatchIndex(matches: seq<Match>, matchId: string): int {
    FindIndex(matches, (m: Match) => m.id == matchId)
  }

  function QuestionIndex(questions: seq<MatchQuestion>, round: Round): int {
    FindIndex(questions, (q: MatchQuestion) => q.round == round)
  }

  /** `questions.find(q => q.round === round)`. */
  function QuestionFor(questions: seq<MatchQuestion>, round: Round): (q: Option<MatchQuestion>)
    ensures q.Some? <==> exists i :: 0 <= i < |questions| && questions[i].round == round
    ensures q.Some? ==> q.value in questions && q.value.round == round
    ensures q.Some? ==> exists k :: 0 <= k < |questions| && q.value == questions[k] &&
                                    forall j :: 0 <= j < k ==> questions[j].round != round
  {
    var k := QuestionIndex(questions, round);
    if k == -1 then None else Some(questions[k])
  }

  // ---------------------------------------------------------------------------------------
  // Round-robin scheduling

  /** The match the scheduler pushes for teams i and j. */
  function PairMatch(teams: seq<TeamConfig>, i: nat, j: nat): Match
    requires i < j < |teams|
  {
    Match("match-" + NatToString(i) + "-" + NatToString(j), teams[i].name, teams[j].name,
          None, None, None, Pending, [], R1, 0, Idle)
  }

  /** Team i's row: its matches against teams i+1 .. j-1, in order. */
  function Row(teams: seq<TeamConfig>, i: nat, j: nat): seq<Match>
    requires i < j <= |teams|
    decreases j
  {
    if j == i + 1 then [] else Row(teams, i, j - 1) + [PairMatch(teams, i, j - 1)]
  }

  /** The rows of teams 0 .. i-1. */
  function Rows(teams: seq<TeamConfig>, i: nat): seq<Match>
    requires i <= |teams|
  {
    if i == 0 then [] else Rows(teams, i - 1) + Row(teams, i - 1, |teams|)
  }

  /** The matches `createTournament` schedules: every pair in round-robin mode, none otherwise. */
  function Schedule(teams: seq<TeamConfig>, mode: string): seq<Match> {
    if mode == "roundrobin" then Rows(teams, |teams|) else []
  }

  /** The nested loops of `createTournament`, pushing one match per pair i < j. */
  method GenerateMatches(teams: seq<TeamConfig>, mode: string) returns (matches: seq<Match>)
    ensures matches == Schedule(teams, mode)
  {
    matches := [];
    if mode == "roundrobin" {
      var i := 0;
      while i < |teams|
        invariant 0 <= i <= |teams|
        invariant matches == Rows(teams, i)
      {
        var j := i + 1;
        while j < |teams|
          invariant i < j <= |teams|
          invariant matches == Rows(teams, i) + Row(teams, i, j)
        {
          matches := matches + [PairMatch(teams, i, j)];
          j := j + 1;
        }
        i := i + 1;
      }
    }
  }

  lemma {:induction false} RowShape(teams: seq<TeamConfig>, i: nat, j: nat)
    requires i < j <= |teams|
    ensures |Row(teams, i, j)| == j - i - 1
    ensures forall b :: i < b < j ==> Row(teams, i, j)[b - i - 1] == PairMatch(teams, i, b)
    decreases j
  {
    if j > i + 1 {
      RowShape(teams, i, j - 1);
    }
  }

  /** Where row a starts: the number of matches of the teams before a. */
  function RowStart(n: nat, a: nat): nat
    requires a <= n
  {
    if a == 0 then 0 else RowStart(n, a - 1) + (n - a)
  }

  /** The position of the match of teams a < b: row a, column b-a-1. */
  function PairIndex(n: nat, a: nat, b: nat): nat
    requires a < b <= n
  {
    RowStart(n, a) + (b - a - 1)
  }

  /** Rows 0 .. a-1 hold a*(2n-a-1)/2 matches. */
  lemma {:induction false} RowStartClosedForm(n: nat, a: nat)
    requires a <= n
    ensures 2 * RowStart(n, a) == a * (2 * n - a - 1)
  {
    if a > 0 {
      RowStartClosedForm(n, a - 1);
      calc {
        2 * RowStart(n, a);
        2 * RowStart(n, a - 1) + 2 * (n - a);
        (a - 1) * (2 * n - a) + 2 * (n - a);
        a * (2 * n - a - 1);
      }
    }
  }

  lemma {:induction false} RowsLength(teams: seq<TeamConfig>, i: nat)
    requires i <= |teams|
    ensures |Rows(teams, i)| == RowStart(|teams|, i)
  {
    if i > 0 {
      RowsLength(teams, i - 1);
      RowShape(teams, i - 1, |teams|);
    }
  }

  lemma {:induction false} RowStartGrows(n: nat, a: nat, c: nat)
    requires a < c <= n
    ensures RowStart(n, a) + (n - a - 1) <= RowStart(n, c)
    decreases c
  {
    if a < c - 1 {
      RowStartGrows(n, a, c - 1);
    }
  }

  /** The match of teams a < b sits at row a, column b-a-1. */
  lemma {:induction false} RowsAt(teams: seq<TeamConfig>, i: nat, a: nat, b: nat)
    requires i <= |teams| && a < i && a < b < |teams|
    ensures PairIndex(|teams|, a, b) < |Rows(teams, i)|
    ensures Rows(teams, i)[PairIndex(|teams|, a, b)] == PairMatch(teams, a, b)
  {
    var prev := Rows(teams, i - 1);
    var row := Row(teams, i - 1, |teams|);
    var k := PairIndex(|teams|, a, b);
    assert Rows(teams, i) == prev + row;
    if a < i - 1 {
      assert k < |prev| && prev[k] == PairMatch(teams, a, b) by {
        RowsAt(teams, i - 1, a, b);
      }
    } else {
      assert k == |prev| + (b - a - 1) by {
        RowsLength(teams, i - 1);
      }
      assert b - a - 1 < |row| && row[b - a - 1] == PairMatch(teams, a, b) by {
        RowShape(teams, i - 1, |teams|);
      }
    }
  }

  /**
   * Round-robin over n teams yields n*(n-1)/2 matches, and the match of teams a < b (a pending
   * `match-a-b` between their names) sits at row a, column b-a-1; any other mode yields none.
   */
  lemma RoundRobinSchedule(teams: seq<TeamConfig>, mode: string)
    ensures mode != "roundrobin" ==> Schedule(teams, mode) == []
    ensures mode == "roundrobin" ==> 2 * |Schedule(teams, mode)| == |teams| * (|teams| - 1)
    ensures mode == "roundrobin" ==>
              forall a: nat, b: nat :: a < b < |teams| ==>
                PairIndex(|teams|, a, b) < |Schedule(teams, mode)| &&
                Schedule(teams, mode)[PairIndex(|teams|, a, b)] == PairMatch(teams, a, b)
  {
    if mode == "roundrobin" {
      RowsLength(teams, |teams|);
      RowStartClosedForm(|teams|, |teams|);
      assert 2 * |teams| - |teams| - 1 == |teams| - 1;
      var s := Schedule(teams, mode);
      assert s == Rows(teams, |teams|);
      forall a: nat, b: nat | a < b < |teams|
        ensures PairIndex(|teams|, a, b) < |s| && s[PairIndex(|teams|, a, b)] == PairMatch(teams, a, b)
      {
        RowsAt(teams, |teams|, a, b);
      }
    }
  }

  /** Every scheduled match is pending, blank and at round 1, between two distinct positions. */
  lemma {:induction false} ScheduledMatchesArePairs(teams: seq<TeamConfig>, i: nat)
    requires i <= |teams|
    ensures forall m :: m in Rows(teams, i) ==>
              exists a: nat, b: nat :: a < i && a < b < |teams| && m == PairMatch(teams, a, b)
  {
    if i > 0 {
      ScheduledMatchesArePairs(teams, i - 1);
      RowShape(teams, i - 1, |teams|);
      var row := Row(teams, i - 1, |teams|);
      forall m | m in row
        ensures exists a: nat, b: nat :: a < i && a < b < |teams| && m == PairMatch(teams, a, b)
      {
        var k :| 0 <= k < |row| && row[k] == m;
        assert m == PairMatch(teams, i - 1, k + i);
      }
    }
  }

  /** `createTournament` gives up without a user, with a blank name, or with fewer than two teams. */
  predicate CanCreate(loggedIn: bool, name: string, teams: seq<TeamConfig>) {
    loggedIn && !IsBlank(name) && |teams| >= 2
  }

  // ---------------------------------------------------------------------------------------
  // Questions of a match

  function BlankQuestion(id: string, round: Round, difficulty: string): MatchQuestion {
    MatchQuestion(id, round, "", [Answer("", 0)], "general", difficulty)
  }

  /** The five questions `createMatchQuestions` gives a match. */
  function MatchQuestions(matchId: string): (qs: seq<MatchQuestion>)
    ensures |qs| == 5
    ensures forall i :: 0 <= i < 5 ==> qs[i].round == [R1, R2, R3, R4, Tiebreaker][i]
    ensures forall q :: q in qs ==> q.question == "" && q.answers == [Answer("", 0)] && q.category == "general"
    ensures qs[4].id == matchId + "-tiebreaker" && qs[4].difficulty == "hard"
    ensures forall i :: 0 <= i < 4 ==>
              qs[i].id == matchId + "-round" + NatToString(i + 1) && qs[i].difficulty == "medium"
  {
    [BlankQuestion(matchId + "-round1", R1, "medium"),
     BlankQuestion(matchId + "-round2", R2, "medium"),
     BlankQuestion(matchId + "-round3", R3, "medium"),
     BlankQuestion(matchId + "-round4", R4, "medium"),
     BlankQuestion(matchId + "-tiebreaker", Tiebreaker, "hard")]
  }

  /** The tournament after `createMatchQuestions(matchId)`; an unknown id leaves it as it is. */
  function WithMatchQuestions(t: Tournament, matchId: string): Tournament {
    var k := MatchIndex(t.matches, matchId);
    if k == -1 then t
    else t.(matches := t.matches[k := t.matches[k].(questions := MatchQuestions(matchId))])
  }

  /**
   * The first match with the id gets exactly the five questions; every other match and every
   * other field are kept; an unknown id changes nothing.
   */
  lemma CreateMatchQuestionsEffect(t: Tournament, matchId: string)
    ensures var k := MatchIndex(t.matches, matchId);
            var r := WithMatchQuestions(t, matchId);
            (k == -1 ==> r == t) &&
            (k != -1 ==>
               r.matches[k].questions == MatchQuestions(matchId) &&
               r.matches[k] == t.matches[k].(questions := MatchQuestions(matchId)) &&
               |r.matches| == |t.matches| &&
               (forall i :: 0 <= i < |t.matches| && i != k ==> r.matches[i] == t.matches[i]) &&
               r.(matches := t.matches) == t)
  {
  }

  /** What `updateQuestionInTournament` writes into the question. */
  datatype QuestionEdit = SetText(text: string) | SetAnswers(answers: seq<Answer>)

  function ApplyEdit(q: MatchQuestion, edit: QuestionEdit): MatchQuestion {
    match edit
    case SetText(text) => q.(question := text)
    case SetAnswers(answers) => q.(answers := answers)
  }

  /** The text a round has inside the created id: `${round}`. */
  function RoundText(round: Round): string {
    match round
    case R1 => "1"
    case R2 => "2"
    case R3 => "3"
    case R4 => "4"
    case Tiebreaker => "tiebreaker"
  }

  /** The questions of a match after editing the round's question, creating it first when absent. */
  function EditQuestions(questions: seq<MatchQuestion>, matchId: string, round: Round,
                         edit: QuestionEdit): seq<MatchQuestion>
  {
    var k := QuestionIndex(questions, round);
    if k == -1 then
      questions + [ApplyEdit(BlankQuestion(matchId + "-round" + RoundText(round), round, "medium"), edit)]
    else questions[k := ApplyEdit(questions[k], edit)]
  }

  /**
   * Editing touches exactly one question, the first of that round, creating it at the end when
   * the match has none; a question created for the tiebreaker gets the id `<matchId>-roundtiebreaker`
   * and difficulty "medium", unlike the `-tiebreaker`/"hard" one `createMatchQuestions` makes.
   */
  lemma EditQuestionsEffect(questions: seq<MatchQuestion>, matchId: string, round: Round, edit: QuestionEdit)
    ensures var r := EditQuestions(questions, matchId, round, edit);
            var k := QuestionIndex(questions, round);
            (k == -1 ==> |r| == |questions| + 1 && r[..|questions|] == questions &&
                         r[|questions|].round == round &&
                         r[|questions|].id == matchId + "-round" + RoundText(round) &&
                         r[|questions|].difficulty == "medium") &&
            (k != -1 ==> |r| == |questions| &&
                         r[k] == ApplyEdit(questions[k], edit) &&
                         forall i :: 0 <= i < |questions| && i != k ==> r[i] == questions[i]) &&
            QuestionFor(r, round).Some? &&
            QuestionFor(r, round).value == ApplyEdit(QuestionFor(r, round).value, edit)
    ensures round == Tiebreaker && QuestionIndex(questions, round) == -1 ==>
              EditQuestions(questions, matchId, round, edit)[|questions|].id == matchId + "-roundtiebreaker"
  {
    var r := EditQuestions(questions, matchId, round, edit);
    var k := QuestionIndex(questions, round);
    var p := (q: MatchQuestion) => q.round == round;
    if k == -1 {
      assert forall i :: 0 <= i < |questions| ==> r[i] == questions[i];
      assert p(r[|questions|]);
      var k' := QuestionIndex(r, round);
      assert k' == |questions|;
    } else {
      assert forall i :: 0 <= i < k ==> r[i] == questions[i];
      assert p(r[k]);
      assert QuestionIndex(r, round) == k;
    }
  }

  /** The in-place edit: push the blank question when the round has none, then set the field of the round's question. */
  method EditQuestionList(questions: seq<MatchQuestion>, matchId: string, round: Round, edit: QuestionEdit)
    returns (edited: seq<MatchQuestion>)
    ensures edited == EditQuestions(questions, matchId, round, edit)
  {
    edited := questions;
    var questionIndex := QuestionIndex(edited, round);
    if questionIndex == -1 {
      edited := edited + [BlankQuestion(matchId + "-round" + RoundText(round), round, "medium")];
      questionIndex := |edited| - 1;
    }
    edited := edited[questionIndex := ApplyEdit(edited[questionIndex], edit)];
    assert QuestionIndex(questions, round) == -1 ==>
      edited == questions + [ApplyEdit(BlankQuestion(matchId + "-round" + RoundText(round), round, "medium"), edit)];
  }

  /** The tournament after `updateQuestionInTournament`, with the edited match, or None when the match is unknown. */
  function EditQuestion(t: Tournament, matchId: string, round: Round, edit: QuestionEdit): Option<Tournament> {
    var k := MatchIndex(t.matches, matchId);
    if k == -1 then None
    else
      var m := t.matches[k];
      Some(t.(matches := t.matches[k := m.(questions := EditQuestions(m.questions, matchId, round, edit))]))
  }

  // ---------------------------------------------------------------------------------------
  // Matches of the running tournament

  /** The matches with `gameState` (or `currentRound`) changed in the first match with the id. */
  function SetMatchState(matches: seq<Match>, matchId: string, s: GameState): seq<Match> {
    var k := MatchIndex(matches, matchId);
    if k == -1 then matches else matches[k := matches[k].(gameState := s)]
  }

  function SetMatchRound(matches: seq<Match>, matchId: string, r: Round): seq<Match> {
    var k := MatchIndex(matches, matchId);
    if k == -1 then matches else matches[k := matches[k].(currentRound := r)]
  }

  /** Only the first match with the id changes, and only in the one field. */
  lemma SetMatchFieldEffect(matches: seq<Match>, matchId: string, s: GameState, r: Round)
    ensures |SetMatchState(matches, matchId, s)| == |matches| == |SetMatchRound(matches, matchId, r)|
    ensures var k := MatchIndex(matches, matchId);
            forall i :: 0 <= i < |matches| ==>
              SetMatchState(matches, matchId, s)[i] ==
                (if i == k then matches[i].(gameState := s) else matches[i]) &&
              SetMatchRound(matches, matchId, r)[i] ==
                (if i == k then matches[i].(currentRound := r) else matches[i])
    ensures (forall m :: m in matches ==> m.id != matchId) ==>
              SetMatchState(matches, matchId, s) == matches && SetMatchRound(matches, matchId, r) == matches
  {
  }

  /** `onCompleteMatch`: every match with the id becomes completed. */
  function CompleteMatch(t: Tournament, matchId: string): (r: Tournament)
    ensures |r.matches| == |t.matches|
    ensures forall i :: 0 <= i < |t.matches| ==>
              r.matches[i] == (if t.matches[i].id == matchId then t.matches[i].(status := Completed) else t.matches[i])
    ensures r.(matches := t.matches) == t
  {
    t.(matches := seq(|t.matches|, i requires 0 <= i < |t.matches| =>
         if t.matches[i].id == matchId then t.matches[i].(status := Completed) else t.matches[i]))
  }

  /** Completing a match never moves the stored match index, and completing twice is completing once. */
  lemma CompleteMatchKeepsIndex(t: Tournament, matchId: string)
    ensures CompleteMatch(t, matchId).storedMatchIndex == t.storedMatchIndex
    ensures CompleteMatch(CompleteMatch(t, matchId), matchId) == CompleteMatch(t, matchId)
  {
    var once := CompleteMatch(t, matchId);
    var twice := CompleteMatch(once, matchId);
    assert twice.matches == once.matches;
  }

  // ---------------------------------------------------------------------------------------
  // Teams

  const TeamColorHex: seq<string> :=
    ["#ef4444", "#3b82f6", "#22c55e", "#a855f7", "#f97316", "#ec4899", "#06b6d4", "#eab308"]

  /** The colour names of the same palette, in the same order. */
  const TeamColorNames: seq<string> :=
    ["red", "blue", "green", "purple", "orange", "pink", "cyan", "yellow"]

  const TeamIconValues: seq<string> :=
    ["crown", "star", "heart", "zap", "shield", "trophy", "target", "flame", "gamepad"]

  /** The two teams the setup form starts with. */
  const DefaultTeams: seq<TeamConfig> := [
    TeamConfig("Team 1", "#ef4444", "#dc2626", "crown", None, None, Some("Champions in the making!")),
    TeamConfig("Team 2", "#3b82f6", "#2563eb", "star", None, None, Some("Ready to dominate!"))
  ]

  /** The team `addTournamentTeam` appends when the form holds n teams. */
  function NewTeam(n: nat): (t: TeamConfig)
    ensures t.name == "Team " + NatToString(n + 1)
    ensures t.primaryColor == TeamColorHex[n % 8] && t.secondaryColor == TeamColorHex[(n + 1) % 8]
    ensures t.icon == TeamIconValues[n % 9] && t.motto == Some("Ready to compete!")
  {
    TeamConfig("Team " + NatToString(n + 1), TeamColorHex[n % |TeamColorHex|],
               TeamColorHex[(n + 1) % |TeamColorHex|], TeamIconValues[n % |TeamIconValues|],
               None, None, Some("Ready to compete!"))
  }

  /** A new team's secondary colour is the primary colour of the team after it. */
  lemma NewTeamColorsCycle(n: nat)
    ensures NewTeam(n).secondaryColor == NewTeam(n + 1).primaryColor
    ensures NewTeam(n).primaryColor != NewTeam(n).secondaryColor
    ensures NewTeam(n + 8).primaryColor == NewTeam(n).primaryColor
    ensures NewTeam(n + 9).icon == NewTeam(n).icon
  {
  }

  /** `removeTournamentTeam`: drop position `index`, unless only two teams are left. */
  function RemoveTeam(teams: seq<TeamConfig>, index: int): (r: seq<TeamConfig>)
    ensures |teams| <= 2 ==> r == teams
    ensures |teams| > 2 && 0 <= index < |teams| ==> r == teams[..index] + teams[index + 1..]
    ensures |teams| > 2 && !(0 <= index < |teams|) ==> r == teams
    ensures |r| >= 2 || r == teams
  {
    if |teams| <= 2 then teams
    else if 0 <= index < |teams| then teams[..index] + teams[index + 1..]
    else teams
  }

  /** The fields an update may carry; None is a key the update does not have. */
  datatype TeamUpdate = TeamUpdate(
    name: Option<string>, primaryColor: Option<string>, secondaryColor: Option<string>,
    icon: Option<string>, iconUrl: Option<string>, logo: Option<string>, motto: Option<string>)

  /** `{ ...team, ...updates }`. */
  function Merge(team: TeamConfig, u: TeamUpdate): TeamConfig {
    TeamConfig(
      u.name.GetOr(team.name), u.primaryColor.GetOr(team.primaryColor),
      u.secondaryColor.GetOr(team.secondaryColor), u.icon.GetOr(team.icon),
      if u.iconUrl.Some? then u.iconUrl else team.iconUrl,
      if u.logo.Some? then u.logo else team.logo,
      if u.motto.Some? then u.motto else team.motto)
  }

  /** `updateTournamentTeam`: merge the update into position `index` only. */
  function UpdateTeam(teams: seq<TeamConfig>, index: int, u: TeamUpdate): (r: seq<TeamConfig>)
    ensures |r| == |teams|
    ensures forall i :: 0 <= i < |teams| ==> r[i] == if i == index then Merge(teams[i], u) else teams[i]
  {
    seq(|teams|, i requires 0 <= i < |teams| => if i == index then Merge(teams[i], u) else teams[i])
  }

  /** An update sets exactly the fields it carries; an empty update changes nothing. */
  lemma MergeEffect(team: TeamConfig, u: TeamUpdate)
    ensures u.name.Some? ==> Merge(team, u).name == u.name.value
    ensures u.name.None? ==> Merge(team, u).name == team.name
    ensures u.logo.Some? ==> Merge(team, u).logo == u.logo
    ensures u.logo.None? ==> Merge(team, u).logo == team.logo
    ensures u.primaryColor.Some? ==> Merge(team, u).primaryColor == u.primaryColor.value
    ensures u.primaryColor.None? ==> Merge(team, u).primaryColor == team.primaryColor
    ensures u.secondaryColor.Some? ==> Merge(team, u).secondaryColor == u.secondaryColor.value
    ensures u.secondaryColor.None? ==> Merge(team, u).secondaryColor == team.secondaryColor
    ensures u.icon.Some? ==> Merge(team, u).icon == u.icon.value
    ensures u.icon.None? ==> Merge(team, u).icon == team.icon
    ensures u.iconUrl.Some? ==> Merge(team, u).iconUrl == u.iconUrl
    ensures u.iconUrl.None? ==> Merge(team, u).iconUrl == team.iconUrl
    ensures u.motto.Some? ==> Merge(team, u).motto == u.motto
    ensures u.motto.None? ==> Merge(team, u).motto == team.motto
    ensures u == TeamUpdate(None, None, None, None, None, None, None) ==> Merge(team, u) == team
    ensures Merge(Merge(team, u), u) == Merge(team, u)
  {
  }

  // ---------------------------------------------------------------------------------------
  // Resuming a tournament

  /** `data.find(t => t.status === "in-progress") || data[0]`. */
  function PickActive(tournaments: seq<Tournament>): (t: Tournament)
    requires |tournaments| > 0
    ensures t in tournaments
    ensures (exists u :: u in tournaments && u.status == Running) <==> t.status == Running
    ensures (forall u :: u in tournaments ==> u.status != Running) ==> t == tournaments[0]
    ensures t.status == Running ==>
      exists k :: 0 <= k < |tournaments| && t == tournaments[k] &&
                  forall j :: 0 <= j < k ==> tournaments[j].status != Running
  {
    var k := FindIndex(tournaments, (u: Tournament) => u.status == Running);
    if k == -1 then tournaments[0] else tournaments[k]
  }

  /** `matches[current_match_index] || matches[0]`, for a tournament with matches. */
  function ResumeMatch(t: Tournament): (m: Match)
    requires |t.matches| > 0
    ensures m in t.matches
    ensures 0 <= t.storedMatchIndex < |t.matches| ==> m == t.matches[t.storedMatchIndex]
    ensures !(0 <= t.storedMatchIndex < |t.matches|) ==> m == t.matches[0]
  {
    if 0 <= t.storedMatchIndex < |t.matches| then t.matches[t.storedMatchIndex] else t.matches[0]
  }
}
