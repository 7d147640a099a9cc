/**
 * The display rules the viewer and the game-play page derive from the shared snapshot: the
 * two-column answer board, the strike lamps, the tie-breaker score reset, the grand winner and
 * the post-round arithmetic.
 */
module Display {
  import opened Wrappers
  import opened Text
  import opened GameUtils
  import opened Tournaments
  import opened Control

  // ---------------------------------------------------------------------------------------
  // The answer board

  /** `Math.ceil(n / 2)`: the number of answers in the left column. */
  function LeftCount(n: nat): (k: nat)
    ensures 2 * k == n || 2 * k == n + 1
  {
    (n + 1) / 2
  }

  /** `revealedAnswers[i]`: an index past the end reads `undefined`, which is falsy. */
  predicate Revealed(revealed: seq<bool>, i: int) {
    0 <= i < |revealed| && revealed[i]
  }

  /** What a board slot shows: nothing, or the answer's text and a points badge. */
  datatype Cell = Hidden | Shown(text: string, points: int)

  function CellOf(a: Answer, revealed: bool, points: int): Cell {
    if revealed then Shown(a.text, points) else Hidden
  }

  /** The answer indices of the left column, then of the right column (`index + ceil(n / 2)`). */
  function LeftIndices(n: nat): seq<nat> {
    seq(LeftCount(n), i => i)
  }

  function RightIndices(n: nat): seq<nat> {
    seq(n - LeftCount(n), j => j + LeftCount(n))
  }

  /** The columns list every answer index once, in order, the left one holding the extra answer of an odd count. */
  lemma BoardCoversEachAnswerOnce(n: nat)
    ensures LeftIndices(n) + RightIndices(n) == seq(n, i => i)
    ensures |LeftIndices(n)| == |RightIndices(n)| || |LeftIndices(n)| == |RightIndices(n)| + 1
    ensures forall i :: 0 <= i < n ==> (i in LeftIndices(n)) != (i in RightIndices(n))
    ensures forall i :: i in LeftIndices(n) || i in RightIndices(n) ==> 0 <= i < n
  {
    var l, r := LeftIndices(n), RightIndices(n);
    forall i | 0 <= i < n
      ensures (i in l) != (i in r)
    {
      if i < LeftCount(n) {
        assert l[i] == i;
        assert i !in r;
      } else {
        assert r[i - LeftCount(n)] == i;
        assert i !in l;
      }
    }
  }

  /** The viewer's board: both columns show points × the round's multiplier. */
  function ViewerBoard(answers: seq<Answer>, revealed: seq<bool>, multiplier: nat): seq<Cell> {
    var k := LeftCount(|answers|);
    seq(k, i requires 0 <= i < k && k <= |answers| =>
          CellOf(answers[i], Revealed(revealed, i), answers[i].points * multiplier)) +
    seq(|answers| - k, j requires 0 <= j < |answers| - k =>
          CellOf(answers[j + k], Revealed(revealed, j + k), answers[j + k].points * multiplier))
  }

  /** The game-play page's board: the left column shows raw points, the right one points × multiplier. */
  function GamePlayBoard(answers: seq<Answer>, revealed: seq<bool>, multiplier: nat): seq<Cell> {
    var k := LeftCount(|answers|);
    seq(k, i requires 0 <= i < k && k <= |answers| =>
          CellOf(answers[i], Revealed(revealed, i), answers[i].points)) +
    seq(|answers| - k, j requires 0 <= j < |answers| - k =>
          CellOf(answers[j + k], Revealed(revealed, j + k), answers[j + k].points * multiplier))
  }

  /**
   * Slot i of the viewer's board is answer i: hidden until revealed, then its text and points ×
   * multiplier. The game-play page agrees on the right column and shows raw points on the left.
   */
  lemma BoardsShowEachAnswer(answers: seq<Answer>, revealed: seq<bool>, multiplier: nat)
    ensures |ViewerBoard(answers, revealed, multiplier)| == |answers|
    ensures |GamePlayBoard(answers, revealed, multiplier)| == |answers|
    ensures forall i :: 0 <= i < |answers| ==>
              ViewerBoard(answers, revealed, multiplier)[i] ==
                (if Revealed(revealed, i) then Shown(answers[i].text, answers[i].points * multiplier) else Hidden)
    ensures forall i :: 0 <= i < |answers| ==>
              GamePlayBoard(answers, revealed, multiplier)[i] ==
                (if !Revealed(revealed, i) then Hidden
                 else if i < LeftCount(|answers|) then Shown(answers[i].text, answers[i].points)
                 else Shown(answers[i].text, answers[i].points * multiplier))
  {
    var k := LeftCount(|answers|);
    var v := ViewerBoard(answers, revealed, multiplier);
    var g := GamePlayBoard(answers, revealed, multiplier);
    forall i | 0 <= i < |answers|
      ensures v[i] == (if Revealed(revealed, i) then Shown(answers[i].text, answers[i].points * multiplier) else Hidden)
      ensures g[i] == (if !Revealed(revealed, i) then Hidden
                       else if i < k then Shown(answers[i].text, answers[i].points)
                       else Shown(answers[i].text, answers[i].points * multiplier))
    {
      if i >= k {
        assert v[i] == CellOf(answers[(i - k) + k], Revealed(revealed, (i - k) + k), answers[(i - k) + k].points * multiplier);
        assert g[i] == CellOf(answers[(i - k) + k], Revealed(revealed, (i - k) + k), answers[(i - k) + k].points * multiplier);
      }
    }
  }

  /** The two pages disagree on a revealed left-column answer exactly when its points are non-zero and the round multiplies. */
  lemma BoardsDisagreeOnLeftColumn(answers: seq<Answer>, revealed: seq<bool>, round: Round, i: nat)
    requires i < LeftCount(|answers|) && Revealed(revealed, i)
    ensures ViewerBoard(answers, revealed, Multiplier(round))[i] != GamePlayBoard(answers, revealed, Multiplier(round))[i]
            <==> answers[i].points != 0 && round in {R2, R3, R4}
  {
    BoardsShowEachAnswer(answers, revealed, Multiplier(round));
  }

  // ---------------------------------------------------------------------------------------
  // Strikes

  /** The three strike lamps: lamp i is lit when i < strikes. */
  function Lamps(strikes: int): seq<bool> {
    [0 < strikes, 1 < strikes, 2 < strikes]
  }

  function CountLit(lamps: seq<bool>): nat {
    if |lamps| == 0 then 0 else CountLit(lamps[..|lamps| - 1]) + (if lamps[|lamps| - 1] then 1 else 0)
  }

  /** The lit lamps are a prefix, and their number is the strike count clamped to [0, 3]. */
  lemma {:induction false} LampsShowStrikes(strikes: int)
    ensures |Lamps(strikes)| == 3
    ensures forall i :: 0 <= i < 3 ==> Lamps(strikes)[i] == (i < strikes)
    ensures forall i, j :: 0 <= i <= j < 3 && Lamps(strikes)[j] ==> Lamps(strikes)[i]
    ensures CountLit(Lamps(strikes)) == if strikes <= 0 then 0 else if strikes >= 3 then 3 else strikes
  {
    var l := Lamps(strikes);
    assert l[..2][..1] == [0 < strikes];
    assert l[..2][..1][..0] == [];
    assert CountLit(l[..2][..1]) == (if 0 < strikes then 1 else 0);
    assert l[..|l| - 1] == l[..2];
    assert l[..2][..|l[..2]| - 1] == l[..2][..1];
  }

  // ---------------------------------------------------------------------------------------
  // Scores

  /** The team scores on the round-start page and the viewer's round-start and game-play screens: 0 throughout the tie breaker. */
  function DisplayedScore(round: Round, score: int): (shown: int)
    ensures round == Tiebreaker ==> shown == 0
    ensures round != Tiebreaker ==> shown == score
  {
    if round == Tiebreaker then 0 else score
  }

  /** The grand winner: team 1 only when it is strictly ahead, so a tie crowns team 2. */
  function GrandWinner(team1Score: int, team2Score: int): Side {
    if team1Score > team2Score then Team1 else Team2
  }

  function WinnerScore(team1Score: int, team2Score: int): int {
    if team1Score > team2Score then team1Score else team2Score
  }

  function LoserScore(team1Score: int, team2Score: int): int {
    if team1Score > team2Score then team2Score else team1Score
  }

  lemma GrandWinnerChoice(team1Score: int, team2Score: int)
    ensures GrandWinner(team1Score, team2Score) == Team1 <==> team1Score > team2Score
    ensures team1Score == team2Score ==> GrandWinner(team1Score, team2Score) == Team2
    ensures WinnerScore(team1Score, team2Score) >= LoserScore(team1Score, team2Score)
    ensures {WinnerScore(team1Score, team2Score), LoserScore(team1Score, team2Score)} == {team1Score, team2Score}
    ensures WinnerScore(team1Score, team2Score) == if GrandWinner(team1Score, team2Score) == Team1 then team1Score else team2Score
  {
  }

  /** `String(n)` for an integer. */
  function ScoreText(n: int): string {
    if n < 0 then "-" + NatToString(-n) else NatToString(n)
  }

  /** `String(n).padStart(3, "0")`. */
  function ZeroPad3(n: int): string {
    PadStart(ScoreText(n), 3, '0')
  }

  function Pow10(k: nat): nat {
    if k == 0 then 1 else 10 * Pow10(k - 1)
  }

  lemma {:induction false} NatToStringBound(n: nat, k: nat)
    requires 1 <= k && n < Pow10(k)
    ensures |NatToString(n)| <= k
    decreases k
  {
    if n >= 10 {
      assert k >= 2;
      NatToStringBound(n / 10, k - 1);
    }
  }

  lemma {:induction false} PadStartDigits(s: string, width: nat)
    requires forall i :: 0 <= i < |s| ==> IsDigit(s[i])
    ensures var p := PadStart(s, width, '0');
            (forall i :: 0 <= i < |p| ==> IsDigit(p[i])) &&
            |p| == (if |s| >= width then |s| else width) &&
            DigitsValue(p) == DigitsValue(s)
    decreases width - |s|
  {
    if |s| < width {
      LeadingZero(s);
      assert [ '0' ] + s == "0" + s;
      PadStartDigits("0" + s, width);
    }
  }

  /** A score from 0 to 999 is shown as exactly three digits that read back as the score. */
  lemma ZeroPad3ReadsBack(n: int)
    requires 0 <= n < 1000
    ensures |ZeroPad3(n)| == 3
    ensures forall i :: 0 <= i < 3 ==> IsDigit(ZeroPad3(n)[i])
    ensures DigitsValue(ZeroPad3(n)) == n
  {
    NatToStringRoundTrip(n);
    NatToStringBound(n, 3);
    PadStartDigits(NatToString(n), 3);
  }

  // ---------------------------------------------------------------------------------------
  // The post-round scoring screen

  /** `roundWinner` as stored: "team1", "team2", or anything else for no winner. */
  function RoundPoints(team: Side, roundWinner: Option<Side>, roundScore: int): int {
    if roundWinner == Some(team) then roundScore else 0
  }

  /** "Previous": the score less the round pool, for both teams. */
  function PreviousScore(score: int, roundScore: int): int {
    score - roundScore
  }

  /** "Total": in the tie breaker only the round's points, otherwise the stored score. */
  function PostRoundTotal(team: Side, round: Round, roundWinner: Option<Side>, score: int, roundScore: int): int {
    if round == Tiebreaker then RoundPoints(team, roundWinner, roundScore) else score
  }

  /** The label under the scores: the match ends after round 4 and after the tie breaker. */
  function NextRoundLabel(round: Round): string {
    if round == R4 || round == Tiebreaker then "Match Complete!"
    else "Next: " + RoundName(NextRoundOf(round).value)
  }

  /**
   * The two panels together credit the pool once when there is a round winner and nothing
   * otherwise. Outside the tie breaker both panels show "Previous" as the score less the
   * pool, so only the winner's lines add up to its Total: the other team's fall short by
   * the pool. In the tie breaker the two Totals sum to the credited pool.
   */
  lemma PostRoundArithmetic(team: Side, round: Round, roundWinner: Option<Side>, score: int, roundScore: int)
    ensures RoundPoints(team, roundWinner, roundScore) + RoundPoints(Other(team), roundWinner, roundScore)
            == if roundWinner.Some? then roundScore else 0
    ensures round != Tiebreaker ==>
              PreviousScore(score, roundScore) + RoundPoints(team, roundWinner, roundScore) ==
              PostRoundTotal(team, round, roundWinner, score, roundScore) -
              (if roundWinner == Some(team) then 0 else roundScore)
    ensures round == Tiebreaker ==>
              PostRoundTotal(team, round, roundWinner, score, roundScore) + PostRoundTotal(Other(team), round, roundWinner, score, roundScore)
              == if roundWinner.Some? then roundScore else 0
  {
    if roundWinner.Some? {
      assert roundWinner.value == team || roundWinner.value == Other(team);
    }
  }

  /** The label names the following round, except where there is none left to play in the four. */
  lemma NextRoundLabelNamesFollowingRound(round: Round)
    ensures NextRoundLabel(round) == "Match Complete!" <==> round in {R4, Tiebreaker}
    ensures round !in {R4, Tiebreaker} ==>
              NextRoundLabel(round) == "Next: " + RoundName(NextRoundOf(round).value) &&
              Multiplier(NextRoundOf(round).value) >= Multiplier(round)
  {
    if round !in {R4, Tiebreaker} {
      var s := "Next: " + RoundName(NextRoundOf(round).value);
      assert s[0] == 'N';
      assert "Match Complete!"[0] == 'M';
    }
  }
}
