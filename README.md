# Family Feud game show — a verified model of its game engine

This project models the game engine of a Family Feud style tournament show.

**Control page.** A host runs the show from the control page (`app/page.tsx`). It holds:
- the game state (one of twelve screens);
- the round (1 to 4, then a tie breaker);
- the two team scores, the round pool and the strikes;
- the revealed answers of the current question;
- the team in control and the pass-or-play prompt;
- a tournament of teams and round-robin matches.

While a tournament and a match are current, every change of the state name, round, scores, pool, strikes, revealed answers, tournament or match is saved as a JSON snapshot in `localStorage`, with a copy in a cookie; without them nothing is saved. The snapshot always names team 1 as the team in control, and switching control alone saves nothing; the pass-or-play prompt travels through its own `localStorage` flag. The state name is also broadcast on a channel.

**Display pages.** The viewer page (`app/viewer/page.tsx`) and the state pages under `app/states/` poll that snapshot every 100 ms. They follow the broadcast state to the matching route and draw the board, the scores, the strike lamps, the winners and the bracket from it. `lib/game-utils.ts` holds the shared vocabulary: the round multipliers, the colour and icon tables, and the polling reader.

**How it is modelled.**
- **Pure rules** are Dafny functions over datatypes: lookups, display rules, route resolution, schedule generation and the snapshot projection. Parsed JSON is the `JsonValue.Json` datatype. A property that is absent (`undefined`) is `None` of `Prop`, and JavaScript truthiness and `||` are written out.
- **The control page** is the class `Control.FamilyFeudControl`. Its fields are the host's state and it holds the shared `Storage.Store`.
  - Each handler is a method whose `ensures` ties the new state to a step function on `Control.Host`, the whole state as a value.
  - The game rules are proved as lemmas about those step functions.
- **Stateful display pages** are classes holding the same `Storage.Store` object as the control page:
  - the viewer page;
  - the game-play page with its overlay flags;
  - the polling reader;
  - the route follower.

  Sharing that object is how a write on the control page reaches the next poll.
- **Timers** (the 2-second award and the 1.2-second strike overlay) are queues of pending work. Each is drained by an explicit "fires" method.

## Model

| member | source | states |
|---|---|---|
| Control.NextRoundOf | app/page.tsx:656-660 | the next round is defined exactly when the round is not the tie breaker, and its position is one more |
| Control.AdvanceReachesTiebreaker | app/page.tsx:656-661 | repeated Next Round reaches the tie breaker after 5 − position presses and stays there; before that each press advances one round |
| Control.StrikeAfter | app/page.tsx:810-818 | a strike gives min(3, prev + 1): never above 3, one more below 3, and 3 from 2 or more |
| Control.StrikesSaturate | app/page.tsx:810-818 | from a count in [0, 3] any run of strikes stays in [0, 3], and three or more strikes give 3 |
| Control.Reveal | app/page.tsx:803-807 | revealing index i sets i to true, keeps every other entry, and pads a short list with false (holes read as falsy) |
| Control.RevealIdempotentAndCommutes | app/page.tsx:803-807 | revealing the same answer twice changes nothing, and two reveals commute |
| Control.AllHidden | app/page.tsx:420 | the reset list has the answer count as length and every entry false |
| Control.AwardAnswerRawAndRepeatable | app/page.tsx:937-943 | "Add to team" adds the answer's raw points to the pool, not points × multiplier (they differ in rounds 2–4), and pressing twice adds them twice; a missing row adds nothing |
| Control.PlayStepsPreserveValid | app/page.tsx:639-818 | every game-play handler keeps strikes in [0, 3] and leaves the team form exactly as it was |
| Control.TeamStepsPreserveValid | app/page.tsx:525-551 | add, remove and update keep at least two teams; a removal drops at most one |
| Control.TournamentStepsPreserveValid | app/page.tsx:425-503 | the tournament handlers keep strikes and the team form valid |
| Control.InitialHostValid | app/page.tsx:253-282 | the mounted state is valid |
| Control.NextRoundEffect | app/page.tsx:656-671 | Next Round is a no-op at the tie breaker, otherwise advances one round and sets `currentRound` only on the current match's entry, changing nothing else |
| Control.ChangeStateEffect | app/page.tsx:639-654 | changing the state sets it, broadcasts it and records it on the current match's entry; nothing else changes |
| Control.AwardCreditsCapturedTeam | app/page.tsx:679-691 | Award Points credits the pool captured at the press to the team in control at the press, zeroes the pool and leaves the other team's score unchanged |
| Control.AwardUsesCapturedValues | app/page.tsx:679-691 | a team switch or answers added during the 2 seconds do not change what is credited; the grown pool is still zeroed |
| Control.PlayAndPass | app/page.tsx:911-921 | Pass flips the team and Play keeps it; both clear the prompt and go to game play, with no broadcast and no tournament change |
| Control.ActivateButtonEffect | components/feud/TeamScoresCard.tsx:43-46 | Activate raises the prompt and hands control to the other team; pressing twice gives control back |
| Control.ResetRevealsEffect | app/page.tsx:417-422 | with a question for the round, the revealed list becomes all false with that question's answer count; without one nothing changes |
| Control.EditQuestionSelectsMatch | app/page.tsx:797-798 | a question edit selects the edited match, which now has a question for the round |
| Control.CreateTournamentEffect | app/page.tsx:451-503 | without a user, a non-blank name and two teams nothing happens; otherwise the new tournament holds the form's teams and the schedule, and play starts at its first match |
| Control.FamilyFeudControl.constructor | app/page.tsx:237-282 | the page mounts idle in round 1 with zero scores, no strikes and the two default teams |
| Control.FamilyFeudControl.ChangeGameState | app/page.tsx:639-654 | the new state is the state change applied to the old state |
| Control.FamilyFeudControl.NextRound | app/page.tsx:656-677 | the round advances; a stored `roundDone` of "true" makes both `showAllAnswers` and `roundDone` "false" |
| Control.FamilyFeudControl.AwardPoints | app/page.tsx:679-681 | starts the animation and queues the captured team and pool |
| Control.FamilyFeudControl.AwardTimerFires | app/page.tsx:682-690 | the oldest queued award is credited and the pool is zeroed |
| Control.FamilyFeudControl.RevealAnswer | app/page.tsx:803-807 | the revealed list becomes the reveal of the index |
| Control.FamilyFeudControl.ResetReveals | app/page.tsx:417-422 | the reset effect of a round or match change |
| Control.FamilyFeudControl.HandleStrike | app/page.tsx:810-818 | strikes become min(3, prev + 1) and the strike flag is "true" |
| Control.FamilyFeudControl.StrikeButton | components/feud/GameControlsCard.tsx:144 | the card's own Strike button caps the count at 3 and writes no flag, because the card has no `onStrike` prop |
| Control.FamilyFeudControl.ResetStrikes | app/page.tsx:896 | strikes become 0 and the strike flag is "false" |
| Control.FamilyFeudControl.Play | app/page.tsx:911-915 | the Play step, and the pass-or-play flag is "false" |
| Control.FamilyFeudControl.Pass | app/page.tsx:916-921 | the Pass step, and the pass-or-play flag is "false" |
| Control.FamilyFeudControl.SwitchTeam | app/page.tsx:922 | control passes to the other team |
| Control.FamilyFeudControl.ActivatePassOrPlay | app/page.tsx:923-926 | the prompt is raised and the pass-or-play flag is "true" |
| Control.FamilyFeudControl.ActivateButton | components/feud/TeamScoresCard.tsx:43-46 | the prompt is raised, then control switches |
| Control.FamilyFeudControl.AwardAnswer | app/page.tsx:937-943 | the pool grows by the row's raw points |
| Control.FamilyFeudControl.CreateMatchQuestions | app/page.tsx:581-636 | the tournament gets the five blank questions on the match |
| Control.FamilyFeudControl.UpdateQuestionInTournament | app/page.tsx:762-800 | the tournament and the question editor's selected match reflect the edit |
| Control.FamilyFeudControl.AddTournamentTeam | app/page.tsx:525-534 | the form gets the next default team appended |
| Control.FamilyFeudControl.RemoveTournamentTeam | app/page.tsx:536-539 | the form loses the team at the index unless only two remain |
| Control.FamilyFeudControl.UpdateTournamentTeam | app/page.tsx:541-551 | the update is merged into the form's team at the index, and the form's whole list then replaces the current tournament's teams |
| Control.UpdateTeamReplacesTournamentTeams | app/page.tsx:541-551 | the form's merged list becomes the tournament's teams, whatever teams the tournament had (a loaded four-team tournament edited from a two-team form is left with two); nothing else of the tournament changes |
| Control.FamilyFeudControl.CompleteMatchById | app/page.tsx:957-961 | every match with the id becomes completed |
| Control.FamilyFeudControl.CreateTournament | app/page.tsx:451-503 | the nested loops build the schedule, then the created tournament becomes current |
| Control.FamilyFeudControl.LoadUserTournaments | app/page.tsx:425-449 | the loaded list is stored in `tournaments`; the active tournament and its resumed match and state become current, as `LoadTournamentsStep` states |
| Control.LoadTournamentsEffect | app/page.tsx:433-444 | the list is stored; a non-empty list makes the first in-progress tournament (else the first) current and resumes its indexed match and that match's state; an empty list changes nothing else; scores, strikes and the team form are untouched |
| Control.CreateThenReloadKeeps | app/page.tsx:490-497 | when the reload after a create lists the created tournament first (the backend returns newest first) and nothing is in progress, the created tournament and its first match stay current and the list is stored |
| Control.CreateThenReloadReplaced | app/page.tsx:490-497 | when the reload holds an in-progress tournament, it replaces the tournament just created |
| Control.FamilyFeudControl.SaveSnapshot | app/page.tsx:356-402 | with a tournament and a match, the snapshot text is written to localStorage and to the cookie; otherwise nothing is written |
| Tournaments.FindIndex | app/page.tsx:584 | `findIndex`: the first index satisfying the test, or −1 exactly when none does |
| Tournaments.QuestionFor | app/page.tsx:387 | `find` by round: a question exactly when one has the round, and then the first question with that round |
| Tournaments.GenerateMatches | app/page.tsx:457-472 | the nested loops push exactly the schedule |
| Tournaments.RoundRobinSchedule | app/page.tsx:457-472 | round robin over n teams yields n(n−1)/2 matches, the pending `match-a-b` between the names of teams a < b at row a, column b−a−1; any other mode yields none |
| Tournaments.MatchQuestions | app/page.tsx:588-629 | five blank questions with rounds 1, 2, 3, 4, tie breaker in order, ids `<id>-round1`…`<id>-tiebreaker`, the last one hard |
| Tournaments.CreateMatchQuestionsEffect | app/page.tsx:581-636 | the found match gets exactly the five questions and everything else is kept; an unknown id changes nothing |
| Tournaments.EditQuestionsEffect | app/page.tsx:775-795 | the edit touches exactly the round's first question, creating it at the end when absent (a tie-breaker one is created as `-roundtiebreaker`, medium) |
| Tournaments.EditQuestionList | app/page.tsx:775-795 | the in-place push and field write give the edited question list |
| Tournaments.SetMatchFieldEffect | app/page.tsx:642-645 | only the first match with the id changes, and only in the one field |
| Tournaments.CompleteMatch | app/page.tsx:959-960 | every match with the id becomes completed with its other fields kept; the rest of the tournament is unchanged |
| Tournaments.CompleteMatchKeepsIndex | app/page.tsx:957-961 | completing a match never moves the tournament's stored match index, and completing twice equals completing once |
| Tournaments.NewTeamColorsCycle | app/page.tsx:528-530 | a team's secondary colour is the next team's primary; colours repeat every 8 teams and icons every 9 |
| Tournaments.RemoveTeam | app/page.tsx:536-539 | with more than two teams the indexed team is dropped; otherwise, or for an index out of range, the list is unchanged |
| Tournaments.UpdateTeam | app/page.tsx:541-543 | only the indexed team changes, by the merge |
| Tournaments.MergeEffect | app/page.tsx:542 | for each of the seven fields, a carried value replaces the team's and an absent one keeps it; an empty update changes nothing; merging twice equals merging once |
| Tournaments.PickActive | app/page.tsx:436 | the first in-progress tournament when there is one, else the first tournament of the list |
| Cookies.GetCookie | app/page.tsx:125-134 | the loop returns what the reading of the cookie text gives |
| Cookies.ReadBack | app/page.tsx:125-134 | for a jar of well-formed cookies, `getCookie(name)` is the decoded value of the first cookie of that name, or null |
| Cookies.SetThenGet | app/page.tsx:119-123 | after a cookie is set, reading it gives the new value and other cookies keep theirs |
| GameTimer.PadTwo | app/page.tsx:330 | a number padded to two digits is all digits and reads back as the number |
| GameTimer.FormatTimeRoundTrip | app/page.tsx:327-331 | the display is `MM:SS` with at least two minute digits, and reading it back gives the seconds |
| Snapshot.SnapshotReadsBack | app/page.tsx:358-397 | every member of the written snapshot object reads back as written |
| Snapshot.SnapshotFields | app/page.tsx:358-397 | the snapshot carries the state name, round, scores, strikes and the round's question, always `currentTeam` "team1", no strike overlay, no winners, and the tournament's teams and matches with no `currentMatchIndex` |
| Snapshot.TournamentMembers | app/page.tsx:391-396 | the `tournament` member carries the teams and matches; as written its `currentMatchIndex` is undefined, corrected it is the stored `current_match_index` |
| Snapshot.CorrectedSnapshotFields | app/page.tsx:356-397 | the corrected snapshot differs from the written one only in the `tournament` member, which carries the stored match index |
| Snapshot.PaletteTeamsRenderBlue | app/page.tsx:370 | every palette colour is written as a hex code without `#`, which no colour table lists, so it is drawn blue |
| Snapshot.DefaultTeamOneRendersBlue | app/page.tsx:370 | the default red first team reaches the viewers as "ef4444" and is drawn blue |
| Snapshot.PaletteColorName | app/page.tsx:172-181 | a palette colour is written as its colour name; any other colour as before |
| Snapshot.PaletteColorsRenderByName | app/page.tsx:370-377 | written by name, each palette colour is drawn in its own colour |
| GameUtils.MultiplierTable | lib/game-utils.ts:80-95 | rounds 1, 2, 3, 4 and the tie breaker score ×1, 2, 3, 3, 1, and any other value ×1 |
| GameUtils.MultiplierRange | lib/game-utils.ts:80-95 | every value scores ×1, 2 or 3, and ×1 exactly when it is not 2, 3 or 4 |
| GameUtils.RoundNamesAgreeWithMultipliers | lib/game-utils.ts:72-78 | the round titles announce double and triple points exactly where the multiplier is 2 and 3 |
| GameUtils.ColorClasses | lib/game-utils.ts:3-55 | a listed colour gets its entry, and any other name gets the blue one |
| GameUtils.PolledKeepsLastGood | lib/game-utils.ts:100-111 | the reader keeps its last value exactly when the key is missing, empty or unparseable, and otherwise takes the parsed value |
| GameUtils.PolledIdempotent | lib/game-utils.ts:100-114 | polling unchanged storage twice equals polling once |
| GameUtils.GameDataHook.constructor | lib/game-utils.ts:98 | the cell starts as null |
| GameUtils.GameDataHook.Poll | lib/game-utils.ts:101-111 | one tick moves the cell by the polled reader |
| Storage.Store.SetItem | app/page.tsx:400 | `setItem` replaces one key and keeps the cookies |
| Storage.Store.SetCookie | app/page.tsx:119-123 | setting a cookie replaces one of that name, else appends it, and keeps localStorage |
| Routes.RouteTable | app/states/idle/page.tsx:37-50 | a table lists exactly its states, each at `/states/<state>` |
| Routes.StandardTableCoversControlStates | app/states/idle/page.tsx:37-53 | the shared table covers exactly the twelve control states; grand-winner is absent and resolves to idle |
| Routes.MatchWinnerTableResolution | app/states/match-winner/page.tsx:13-29 | that table adds grand-winner and lacks tournament-start, pass-or-play and post-round-scoring, which resolve to idle there |
| Routes.ResolveTotal | app/states/game-play/page.tsx:106-126 | a listed state resolves to its route, and anything else to `/states/idle` |
| Routes.MessageNavigatesOnlyWhenDifferent | app/states/team-vs/page.tsx:85-91 | a broadcast navigates exactly when its payload is present and the path differs from the target, and then to the target |
| Routes.PollParseFailureIsInert | app/states/game-play/page.tsx:120-130 | a missing, empty or unparseable snapshot never navigates |
| Routes.NavigationSettles | app/states/round-start/page.tsx:95-107 | once at the target, the same state does not navigate again |
| Routes.Follower.constructor | app/states/idle/page.tsx:35-50 | a page starts at its own path with its table |
| Routes.Follower.OnBroadcast | app/states/bracket-show/page.tsx:28-34 | the path moves to the broadcast target exactly as the message rule says |
| Routes.Follower.OnPollTick | app/states/round-start/page.tsx:95-107 | the path moves to the polled target exactly as the poll rule says |
| Display.LeftCount | app/viewer/page.tsx:957 | the left column holds ceil(n / 2) answers |
| Display.BoardCoversEachAnswerOnce | app/viewer/page.tsx:954-1012 | the two columns list every answer index exactly once, in order, the left one holding the extra answer |
| Display.BoardsShowEachAnswer | app/viewer/page.tsx:987-990 | slot i is answer i, hidden until revealed; the viewer shows points × multiplier, and the game-play page shows raw points on the left and multiplied points on the right |
| Display.BoardsDisagreeOnLeftColumn | app/states/game-play/page.tsx:297 | the two pages show a revealed left-column answer differently exactly when its points are non-zero in rounds 2–4 |
| Display.LampsShowStrikes | app/viewer/page.tsx:1061-1067 | lamp i is lit iff i < strikes; the lit lamps are a prefix and number the strikes clamped to [0, 3] |
| Display.GrandWinnerChoice | app/viewer/page.tsx:1660-1675 | team 1 is the grand winner iff strictly ahead, so a tie crowns team 2; the winner's score is the larger |
| Display.ZeroPad3ReadsBack | app/viewer/page.tsx:1717 | a score from 0 to 999 is shown as exactly three digits that read back as the score |
| Display.PostRoundArithmetic | app/viewer/page.tsx:1264-1306 | the two panels credit the pool once when there is a round winner and nothing otherwise; outside the tie breaker only the winner's Previous plus Round Points reaches its Total, the other falls short by the pool; in the tie breaker the two Totals sum to the credited pool |
| Display.NextRoundLabelNamesFollowingRound | app/viewer/page.tsx:1318-1321 | the label is "Match Complete!" iff the round is 4 or the tie breaker, and otherwise names the next round |
| Viewer.TeamDefaultFields | app/viewer/page.tsx:191-202 | the default team objects read back their name, colour and icon |
| Viewer.FallbackIsNormalisedEmpty | app/viewer/page.tsx:215-284 | the fallback literal equals the normalisation of an empty, null or missing record |
| Viewer.NormaliseField | app/viewer/page.tsx:184-212 | each field is the parsed value `||` its default |
| Viewer.NormaliseKeepsTruthyFields | app/viewer/page.tsx:175-212 | truthy fields are kept, falsy ones take their default, and no other field appears |
| Viewer.LoadFailureGivesDefaults | app/viewer/page.tsx:215-284 | a missing key or unparseable text gives the default record: idle, round 1, zero scores, team 1, Team 1 red/crown and Team 2 blue/star |
| Viewer.NormaliseRoundAsWritten | app/viewer/page.tsx:176-183 | only "round2" and "round3" give rounds 2 and 3; every stored round, numbers and "tiebreaker" included, reads as round 1 |
| Viewer.NormaliseKeepsSnapshotValues | app/viewer/page.tsx:175-190 | a record with a state name, numeric scores and "team1" keeps them through normalisation |
| Viewer.ViewerReadsSnapshot | app/viewer/page.tsx:168-214 | a control snapshot reaches the viewer with its state and scores, team 1 in control and round 1, so its tie-breaker scores are never zeroed |
| Viewer.NormaliseRoundCorrected | app/viewer/page.tsx:176-183 | the corrected mapping keeps the legacy strings and reads stored rounds as themselves |
| Viewer.NormaliseRoundCorrectedRoundTrip | app/viewer/page.tsx:176-183 | corrected, every stored round reads back as itself with the same multiplier |
| Viewer.CorrectedViewerReadsSnapshotRound | app/viewer/page.tsx:176-183 | with the corrected mapping, the viewer of a snapshot shows the host's round |
| Viewer.ViewerPage.constructor | app/viewer/page.tsx:168 | the page starts with no data |
| Viewer.ViewerPage.LoadGameState | app/viewer/page.tsx:168-289 | one tick stores the loaded record |
| GamePlayPage.TickReadsFlags | app/states/game-play/page.tsx:80-97 | the snapshot cell follows the polled reader; after a good read the pass-or-play overlay shows iff its flag is "true", and a "true" strike flag shows the strike overlay and schedules one more dismissal on every read while any other value leaves both alone; a bad read changes nothing |
| GamePlayPage.StrikeOverlayCycle | app/states/game-play/page.tsx:87-93 | a "true" strike flag shows the overlay and schedules one dismissal; when it fires the overlay hides and the lowered flag does not show it again |
| GamePlayPage.GamePlayPage.constructor | app/states/game-play/page.tsx:75-77 | no data and no overlays at mount |
| GamePlayPage.GamePlayPage.LoadGameState | app/states/game-play/page.tsx:80-97 | one tick moves the page by the tick rule |
| GamePlayPage.GamePlayPage.StrikeTimerFires | app/states/game-play/page.tsx:89-92 | the overlay hides and the strike flag is written "false" |
| RoundStartPage.RoundStartShowsStoredRound | app/states/round-start/page.tsx:174-218 | for a stored round, the banner is that round's multiplier and a non-zero score shows as 0 iff the round is the tie breaker |
| TeamVsPage.LocalIconAgreesExceptGamepad | app/states/team-vs/page.tsx:34-46 | the page's icons agree with the shared table except "gamepad", which draws the crown here |
| TeamVsPage.UnknownColorIsBlue | app/states/team-vs/page.tsx:20-32 | an unknown colour gets the blue background, a listed one its own |
| TournamentStartPage.TeamCountRule | app/states/tournament-start/page.tsx:109 | the count is the teams array's length, and 0 without teams |
| TournamentStartPage.ControlSnapshotShowsTeams | app/states/tournament-start/page.tsx:100-109 | a control snapshot shows the tournament info with the tournament's number of teams |
| MatchWinnerPage.FindIn | app/states/match-winner/page.tsx:59-64 | `find` by name gives the first team whose name equals, and none iff no team's does |
| MatchWinnerPage.Resolve | app/states/match-winner/page.tsx:37-89 | the step-by-step render gives the page's view |
| MatchWinnerPage.ViewScreens | app/states/match-winner/page.tsx:37-56 | loading iff there is no snapshot or tournament; unavailable iff there is no match at the index or no teams |
| MatchWinnerPage.ControlSnapshotUnavailable | app/states/match-winner/page.tsx:45-56 | every snapshot the control page writes shows the unavailable notice, because `matches[undefined]` is no match |
| MatchWinnerPage.CorrectedSnapshotFindsMatch | app/states/match-winner/page.tsx:45-56 | with the stored index written, the page finds the match at that index and names a winner exactly when the index is in range |
| MatchWinnerPage.TeamAndScoreFallbacks | app/states/match-winner/page.tsx:59-74 | the bracket team found by name, else the top-level config; the match score when numeric, else the top-level score when numeric |
| MatchWinnerPage.WinnerRule | app/states/match-winner/page.tsx:77-84 | an explicit winner wins; otherwise team 1 only when strictly ahead, a tie gives team 2, and without two numeric scores there is none ("TBD") |
| MatchWinnerPage.WinnerColorRule | app/states/match-winner/page.tsx:85-89 | the winner's colour is `color`, else `primaryColor`, else "gray"; with no winner it is "gray" |
| BracketShowPage.CardRules | app/states/bracket-show/page.tsx:68-108 | the current card is highlighted and badged even when completed; other cards follow `completed`; scores show iff completed |
| BracketShowPage.MissingTeamShowsTBD | app/states/bracket-show/page.tsx:83-96 | a missing team reads "TBD" and its "gray" fallback draws blue |
| BracketShowPage.ControlMatchesShowNoTeams | app/states/bracket-show/page.tsx:83-98 | the control page's matches carry no `team1`, `team2` or `completed`, so every card shows "TBD" against "TBD" in blue, without scores, and is never styled completed |
| BracketShowPage.ControlSnapshotHighlightsNoCard | app/states/bracket-show/page.tsx:68-108 | in a control snapshot no card is highlighted or badged, because the tournament has no `currentMatchIndex` |
| BracketShowPage.CorrectedSnapshotHighlightsCurrent | app/states/bracket-show/page.tsx:68-108 | with the stored index written, exactly the card at that index is highlighted and badged |
| Widgets.NextRoundDisabled | components/feud/GameControlsCard.tsx:135 | Next Round is disabled exactly when the host has no next round |
| Widgets.ControlsCardReflectsHost | components/feud/GameControlsCard.tsx:53-135 | the card's overall score is the controlling team's, and Next Round is enabled iff pressing it changes the round |
| Widgets.AwardPointsOnControlsCard | components/feud/GameControlsCard.tsx:67-79 | after Award Points the pool counts from the pool to twice the pool; when the timer fires the overall score has grown by the pool and the pool shows 0 |
| Widgets.TeamName | components/feud/TeamScoresCard.tsx:69 | the team's name when non-empty, else "Team 1"/"Team 2" |
| Widgets.PanelsFollowCurrentTeam | components/feud/TeamScoresCard.tsx:67-112 | only the controlling team's panel is ringed and shows +pool (the other +0); the prompt appears on that panel iff raised, never on the other |
| Widgets.PanelButtons | components/feud/TeamScoresCard.tsx:43-112 | Activate puts the prompt on the other team's panel; Play clears it and keeps the ring; Pass clears it and moves the ring and pool |
| Widgets.AwardAnimationPerPanel | components/feud/TeamScoresCard.tsx:70-100 | team 1's counter counts up by the pool whichever team is in control: it ends at team 1's credited score when team 1 has control, and overshoots team 1's unchanged score when team 2 has it; team 2's panel shows its stored score throughout |
| Widgets.QuestionLine | app/page.tsx:931 | the round's question when non-empty, else "No question set." |
| Widgets.Rows | components/feud/QuestionCard.tsx:37-57 | one row per answer with its raw points, highlighted iff revealed, offering exactly one of Reveal or Add, each carrying the row's index |
| Widgets.RevealButtonEffect | components/feud/QuestionCard.tsx:48-52 | Reveal on a row highlights it and turns its button into Add; other rows and the pool are unchanged |
| Widgets.AddButtonEffect | components/feud/QuestionCard.tsx:53-57 | Add grows the pool by the row's badge value and changes no row, so it can be pressed again |

## Left out

- The Supabase calls (`lib/supabase.ts`): sign-in, registration, tournament create, load and update, and image upload are asynchronous backend calls. A created tournament is a parameter (`created`), the loaded list is another, and backend errors are the `None` case. `updateTournamentInStorage` is not modelled.
- `createTournament` ends with a second `loadUserTournaments` call. The model treats it as a separate `LoadUserTournaments` call; `Control.CreateThenReloadKeeps` and `Control.CreateThenReloadReplaced` state when the created tournament stays current.
- The backend row (`lib/supabase.ts`) carries the match index as `current_match_index`, which the page writes at app/page.tsx:481 and reads at app/page.tsx:440. The model keeps it as the field `storedMatchIndex`. The snapshot (app/page.tsx:395) and the storage update (app/page.tsx:512) read `currentMatchIndex`, which the row never has; the effect on the snapshot is the third finding below. The storage update itself is not modelled.
- `currentMatch` is kept as a separate value. The page's shallow copy of the tournament lets an in-place write through `updatedTournament.matches[i]` also alter the previous tournament object and the match held in `currentMatch`. That aliasing is not modelled.
- `JSON.parse`, `JSON.stringify`, `encodeURIComponent` and `decodeURIComponent` are function parameters. A `decodeURIComponent` exception is not modelled.
- Cookie expiry dates, `deleteCookie`, the `beforeunload` prompt, authentication state and image upload are left out: they are browser or backend effects with no game rule.
- `setInterval` scheduling, the game timer's ticking, the CountUp animation's frames, sound and the microphone are left out: they are timing and media effects. Pending awards and strike dismissals are queues drained by explicit methods.
- The steal logic (`app/page.tsx:820-842`) is commented out in the source and is not modelled.
- Numbers are integers. Floating-point scores, `NaN`, prototype keys such as `"constructor"` in the lookup tables, and a `find` on a non-array `teams` (a `TypeError`) are not modelled.
- Strings are sequences of characters. `trim()` (the blank-name test) strips the six ASCII white-space characters here; the non-ASCII white space it also strips (U+00A0, U+FEFF, U+2028, U+2029 and the other space separators) is not modelled.
- Array holes left by a reveal past the end are stored as `false`, which reads the same as the `undefined` they are.
- Colour values that are not strings, and truthy non-numeric scores, are drawn in the page displays as whatever JavaScript prints. The model draws only what a control snapshot can contain.
- The `onStrike` and `onResetStrikes` props passed to GameControlsCard are unused by the card. The model keeps the card's own Strike button (`Control.FamilyFeudControl.StrikeButton`), and the page's `handleStrike` is a method that nothing on the card calls.
- The pass-or-play, grand-winner and round-end-reveal state pages, and the remaining viewer screens (fast money, tournament winner), are not part of this model.

## Findings

| source | as written | input that shows it | evidently intended | confidence | as-written member | corrected member |
|---|---|---|---|---|---|---|
| app/viewer/page.tsx:176-183 | the viewer maps only the strings "round1", "round2" and "round3" and turns everything else into round 1, but the control page stores rounds as the numbers 1–4 and "tiebreaker" | a snapshot with `currentRound: 3` (or `"tiebreaker"`) is shown as round 1, with ×1 points and tie-breaker scores not zeroed | each stored round is read as itself, the legacy strings still accepted | high, not executed | Viewer.NormaliseRoundAsWritten, Viewer.ViewerReadsSnapshot | Viewer.NormaliseRoundCorrected, Viewer.CorrectedViewerReadsSnapshotRound |
| app/page.tsx:370,377 with lib/game-utils.ts:3-55 | the snapshot writes a team's colour as its hex code without `#`, but every display looks colours up by name | the default first team `#ef4444` is written as "ef4444" and drawn with the blue classes instead of red | the palette's colour name is written, so each team is drawn in its colour | high, not executed | Snapshot.PaletteTeamsRenderBlue | Snapshot.PaletteColorName, Snapshot.PaletteColorsRenderByName |
| app/page.tsx:395 with app/states/match-winner/page.tsx:45-56 and app/states/bracket-show/page.tsx:69,102 | the snapshot writes `currentTournament.currentMatchIndex`, but the tournament is a backend row whose index is `current_match_index`, so the member is undefined and dropped | any snapshot the control page writes, e.g. right after creating a round-robin tournament: the match-winner page shows "Match information unavailable." and the bracket highlights no card (the viewer's bracket at app/viewer/page.tsx:417 likewise) | the snapshot writes the row's `current_match_index` as `currentMatchIndex`, so the displays find the current match | high, not executed | MatchWinnerPage.ControlSnapshotUnavailable, BracketShowPage.ControlSnapshotHighlightsNoCard | MatchWinnerPage.CorrectedSnapshotFindsMatch, BracketShowPage.CorrectedSnapshotHighlightsCurrent |
