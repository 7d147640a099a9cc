/** The round-start state page (`/states/round-start`): the multiplier banner and the two team scores. */
module RoundStartPage {
  import opened Wrappers
  import opened JsonValue
  import opened GameUtils
  import Display

  /** A team's score on the page: 0 while the stored round is "tiebreaker". */
  function ShownScore(currentRound: Prop, score: Prop): Prop {
    if StrictEq(currentRound, S("tiebreaker")) then N(0) else score
  }

  /** The "×N POINTS" banner. */
  function Banner(currentRound: Prop): nat {
    PointMultiplier(currentRound)
  }

  /**
   * For every round the control page stores, the page shows that round's multiplier and the
   * scores as the shared display rule has them: zero in the tie breaker, the stored score otherwise.
   */
  lemma RoundStartShowsStoredRound(r: Round, score: int)
    ensures ShownScore(Some(RoundJson(r)), N(score)) == N(Display.DisplayedScore(r, score))
    ensures Banner(Some(RoundJson(r))) == Multiplier(r)
    ensures score != 0 ==> (r == Tiebreaker <==> ShownScore(Some(RoundJson(r)), N(score)) == N(0))
  {
  }
}
