# Verification of the COPE tournament runner

A Dafny model of the parts of COPE that decide who plays whom, who runs which game, what
is recorded about it, and how it is rated and shown, with proofs of what they promise.

- **Scheduling** (`RoundRobin`, `SwissPairing`, `SwissColours`, `SwissRun`, `SwissAccounting`,
  `SwissStreaks`, `SwissRules`, `SwissTournament`, `Bracket`, `Knockout`, `KnockoutRun`, `KnockoutAccounting`,
  `KnockoutTournament`): the circle method, the backtracking Swiss pairing, colours, byes and scores,
  and knockout brackets with tiebreaks, over whole runs and for every field size.
- **Assignment protocol** (`Assignments`, `AssignmentInvariant`, `AssignmentSteps`,
  `AssignmentWorkers`, `AssignmentHandlers`, `AssignmentSafety`, `AssignmentLog`,
  `AssignmentDatabase`, `AssignmentClaims`, `AssignmentEffects`): the tables for games, assignments, tournaments and workers, with every
  transaction that touches them in any order, stale handlers included. `GameRun` is the loop that
  plays one assigned game, over any number of interrupted runs; `WakeProtocol` is the wake generation and
  the cache of empty claims, `WakeGap` what nobody announces to it; `MachineReservations` are the reservations per machine.
- **Ratings** (`Elo`, `RatingBook`, `RatingCommits`, `RatingSafety`, `RatingRunner`, `RatingRules`): Elo updates in
  millionths of a point, and rating commits as runner commands under a savepoint.
- **Conversation** (`Conversation`): runner and worker client over two ordered channels.
- **Boards and events** (`Fen`, `Boards`, `BoardPages`, `BoardMoves`, `BoardAgreement`, `BoardGames`, `StreamHub`, `LiveGames`): the two
  board implementations of the web pages, Forsyth-Edwards Notation as in section 16.1 of the PGN standard, and the event hub.

Tables are maps and sequences, one committed transaction is one atomic step, and a transaction
that raises leaves the tables as they were. Scores are half points. Chess rules, engines, clocks,
the expected score and everything random enter as parameters. Code that changes state is written
as methods and classes, proved against functions on values; the theorems over runs are about those
functions.

Three places where the code does less than it seems to, found while proving:

- A worker row deleted between authentication and `_record_connection` is inserted again with the
  default reservation, not the one that was checked. `MachineReservations.ConnectKeeps` says exactly
  when the machine still fits, `MachineReservations.DeletedWorkerOversubscribes` shows a case where it does not.
- The scheduler starts tournaments and adds games without a wake: `runner.wake` goes out with the admin's
  request, before the scheduler commits. A worker that scans in between stays parked beside a game until
  somebody else's wake or the fallback timer's. `WakeGap.SchedulerStrands` says exactly when,
  `WakeGap.SchedulerStartStrands` is such a run; without the scheduler no wake-up is lost
  (`WakeGap.NoLostWakeUpWithoutScheduler`).
- The two boards of the web pages part on some pawn and king moves that chess does not have
  (`Boards.SidewaysPawnDiffers`, `Boards.KingFromTheCFileDiffers`); `BoardAgreement.AppliersAgreeExactly`
  says for every move when they do not.

`dafny verify dfyconfig.toml` checks the project.

## Model

| member | source | states |
|---|---|---|
| `RoundRobin.RoundRobinPairings` | cope/runner/scheduler.py:702-723 | the loop that pairs the ends of the list and rotates it yields the boards read off the closed form of the circle method; fewer than two players yield nothing |
| `RoundRobin.PlayRound` | cope/runner/scheduler.py:710-722 | one round: its pairings, and the list rotated by one place behind the first player |
| `RoundRobin.PairEnds` | cope/runner/scheduler.py:711-720 | the inner loop over the two ends, with the first board swapped in odd rounds |
| `RoundRobin.RotateOnce` | cope/runner/scheduler.py:722-722 | moving the last player behind the first is one more rotation of the closed form |
| `RoundRobin.SlotAtInverse` | cope/runner/scheduler.py:702-723 | seat to player and player to seat are inverse in every round |
| `RoundRobin.FacingExactlyOnce` | cope/runner/scheduler.py:702-723 | two slots face each other in exactly one round, given by a formula |
| `RoundRobin.BoardsFromSeats` | cope/runner/scheduler.py:702-723 | the boards taken from the rotated list are the boards of the closed form |
| `RoundRobin.GenerateRoundRobinGames` | cope/runner/scheduler.py:118-152 | the three nested loops produce the whole schedule, and the count that is returned |
| `RoundRobin.GenerateCycle` | cope/runner/scheduler.py:133-151 | one cycle with its round and pair numbers; colours swapped in odd cycles |
| `RoundRobin.EveryPairMeetsOncePerCycle` | cope/runner/scheduler.py:118-152 | over g cycles every two players meet g times, with white counts of floor(g/2) and ceil(g/2) |
| `RoundRobin.OneMeetingInEachCycle` | cope/runner/scheduler.py:118-152 | in each single cycle every two players meet exactly once |
| `RoundRobin.WhiteHalf` | cope/runner/scheduler.py:118-152 | who of the two gets the larger half of the white games |
| `RoundRobin.ScheduleRowIs` | cope/runner/scheduler.py:133-151 | every row belongs to one round of one cycle, with its round, pair and game number; colours are swapped in every second cycle |
| `RoundRobin.FirstSeatAlternates` | cope/runner/scheduler.py:711-720 | the first seat has white in every second round of the method |
| `RoundRobin.SecondSeatIsAlwaysBlack` | cope/runner/scheduler.py:711-720 | the second seat has black in every round of the method, so colours are not balanced within a cycle |
| `RoundRobin.RoundIsMatching` | cope/runner/scheduler.py:702-723 | nobody plays twice in a round or against itself |
| `RoundRobin.FullRoundSize` | cope/runner/scheduler.py:702-723 | every round has floor(n/2) games |
| `RoundRobin.ScheduleSize` | cope/runner/scheduler.py:118-152 | the schedule has g * n(n-1)/2 games |
| `RoundRobin.ScheduleKeysIncrease` | cope/runner/scheduler.py:118-152 | the (round, pair index) keys strictly increase, so no two games share one |
| `SwissPairing.PairIsSound` | cope/runner/scheduler.py:602-619 | whatever the backtracking search returns pairs the remaining players as it should |
| `SwissPairing.PairIsBest` | cope/runner/scheduler.py:602-619 | if an admissible pairing exists the search finds one that no other precedes in (score gap, rank gap) order |
| `SwissPairing.StrictSearchIsComplete` | cope/runner/scheduler.py:595-623 | the search without rematches succeeds if and only if a rematch-free pairing exists |
| `SwissPairing.PairingUsesEachOnce` | cope/runner/scheduler.py:595-623 | a pairing of the ranked list uses every engine exactly once |
| `SwissPairing.PairingIsMatching` | cope/runner/scheduler.py:595-623 | a pairing is a perfect matching in the sense of an independent definition by partner maps |
| `SwissPairing.ListingIsPairing` | cope/runner/scheduler.py:595-623 | every perfect matching can be listed as a pairing the search considers |
| `SwissPairing.LexIsPreference` | cope/runner/scheduler.py:602-609 | coming first in the search order is having, at the first difference, a partner not met before, then closer in points, then higher in the ranking |
| `SwissPairing.SwissPairingsCorrect` | cope/runner/scheduler.py:595-623 | main result: everybody is paired once; the result is rematch-free if and only if a rematch-free perfect matching exists; against every other pairing, rematch-free where the result is, the first engine with another partner has one it prefers by history, points and place; otherwise the fallback still pairs everybody |
| `SwissColours.SwissColours` | cope/runner/scheduler.py:626-653 | the tally loop and the cheaper of the two seatings, the listed one on a tie |
| `SwissColours.RecordSeating` | cope/runner/scheduler.py:633-639 | one game of the tally loop: balance and colour history of the two engines |
| `SwissColours.StreakIsBroken` | cope/runner/scheduler.py:641-653 | an engine coming off two games with one colour, against one that does not, gets the other colour |
| `SwissColours.ThirdInARowOnlyAgainstSameStreak` | cope/runner/scheduler.py:641-653 | a third game with one colour only against an opponent whose last two games had it too |
| `SwissColours.BalanceTermsAreSmall` | cope/runner/scheduler.py:641-653 | the balance terms of the two seatings differ by at most 4, less than one streak penalty of 8 |
| `SwissRules.CostIsBurden` | cope/runner/scheduler.py:626-653 | the cost of a colour counts games: the imbalance after the game, 2 for repeating the latest colour, 8 more for a third in a row |
| `SwissRules.ColoursBurdenLeast` | cope/runner/scheduler.py:626-653 | the two engines are seated the way that burdens them less, the listed way on a tie |
| `SwissStreaks.PlanKeepsStreaks` | cope/runner/scheduler.py:230-252 | over whole tables: a new round keeps the streak rule for every game ever scheduled |
| `SwissStreaks.ResultsKeepStreaks` | cope/runner/scheduler.py:626-653 | recording results keeps the streak rule |
| `SwissRun.SwissPoints` | cope/runner/scheduler.py:552-569 | the loops over games and byes compute every participant's half points |
| `SwissRules.PointsAreTallied` | cope/runner/scheduler.py:552-569 | the table of points counts two half points for each game won and each bye and one for each draw, from the columns of the rows |
| `SwissRules.BuchholzIsOpponentPoints` | cope/runner/scheduler.py:572-584 | Buchholz is the sum over the field of an engine's points times the decided games against it |
| `SwissRun.RankedByIsSorted` | cope/runner/scheduler.py:202-207 | the ranking is sorted by points, Buchholz and seed |
| `SwissRun.RankedBy` | cope/runner/scheduler.py:204-207 | the ranking is a permutation of the field |
| `SwissRules.RankingIsByScore` | cope/runner/scheduler.py:202-207 | whoever stands higher in the ranking has more points, or as many and stronger opponents, or as much of both and the earlier place in the field |
| `SwissRun.OpponentHistory` | cope/runner/scheduler.py:587-592 | the loop that collects who played whom |
| `SwissRun.OpponentsAreMutual` | cope/runner/scheduler.py:587-592 | b is in the history of a exactly when some game had both |
| `SwissRun.ByeIndex` | cope/runner/scheduler.py:209-217 | the bye goes to the lowest-ranked engine without one, or to the last when all have had one |
| `SwissRun.PairUpUsesAll` | cope/runner/scheduler.py:188-265 | the pairs of a round hold every ranked engine once, in the first round as later |
| `SwissRun.PlanRoundCoversField` | cope/runner/scheduler.py:188-265 | every round puts each engine into exactly one pairing or the single bye, and a second bye only after everybody had one |
| `SwissRules.RoundsFollowTheRules` | cope/runner/scheduler.py:199-224 | every planned round: the bye goes to the lowest engine without one; in the first round halves meet place by place, later the pairs are the preferred ones for the history that the games tell |
| `SwissAccounting.NextRoundKeepsInv` | cope/runner/scheduler.py:188-265 | generating the next round keeps the invariant of the two tables: coverage, fair byes, and their exact sizes |
| `SwissAccounting.TotalIsTwicePerGameAndBye` | cope/runner/scheduler.py:552-569 | decided games and byes hand out two half points each |
| `SwissAccounting.CompleteRoundsTotal` | cope/runner/scheduler.py:552-569 | after k complete rounds the half points sum to 2k * ceil(n/2) |
| `SwissTournament.PlanKeepsLinks` | cope/runner/scheduler.py:226-265 | every match that is no bye has exactly one game, between its two engines |
| `SwissTournament.SkeletonKeepsInv` | cope/runner/scheduler.py:309-316 | finishing matches keeps every invariant of the tables |
| `SwissTournament.SettledRoundHasNoPending` | cope/runner/scheduler.py:302-316 | once no game of the round is open, no match stays pending and each takes the result of its game |
| `SwissTournament.AdvancingAgainIsHarmless` | cope/runner/scheduler.py:288-321 | in every reachable state advancing twice is advancing once: the first round, an open round, a last round and a freshly drawn round included |
| `SwissTournament.NewRoundWaits` | cope/runner/scheduler.py:319-320 | a round that has just been drawn has games to wait for |
| `SwissTournament.SwissTournament.constructor` | cope/runner/scheduler.py:188-199 | the empty tables satisfy the invariant |
| `SwissTournament.SwissTournament.GenerateRound` | cope/runner/scheduler.py:188-265 | nothing outside 1..rounds, otherwise exactly the planned rows, floor(n/2) games |
| `SwissTournament.SwissTournament.MakePlan` | cope/runner/scheduler.py:199-224 | scores, ranking, bye and pairings of the next round |
| `SwissTournament.SwissTournament.AppendPlan` | cope/runner/scheduler.py:226-265 | the rows of the plan are appended and all invariants kept |
| `SwissTournament.SwissTournament.InsertRows` | cope/runner/scheduler.py:230-265 | the insertion loop: one match and one game per pair, then the bye |
| `SwissTournament.SwissTournament.RecordResult` | cope/runner/scheduler.py:288-321 | a result arriving for an open game keeps all invariants |
| `SwissTournament.SwissTournament.Advance` | cope/runner/scheduler.py:288-321 | the exact tables after the step: the first round when there is none, nothing while a game is open, otherwise the settled round and, unless it was the last, the planned rows of the next; the answer and the number of games with it |
| `SwissTournament.SwissTournament.FinishMatches` | cope/runner/scheduler.py:309-316 | every pending match of the round takes its game's winner |
| `SwissTournament.SwissTournament.Settle` | cope/runner/scheduler.py:309-316 | the loop over the match rows |
| `Bracket.BracketSeedOrder` | cope/runner/scheduler.py:694-699 | the doubling loop computes the seed order for every power of two, cut to the size asked for |
| `Bracket.SeedOrderIsPermutation` | cope/runner/scheduler.py:694-699 | every seed from 1 to 2^k stands at exactly one place |
| `Bracket.FavouritesAdvance` | cope/runner/scheduler.py:694-699 | neighbours add up to 2^k + 1, and the better ones are the seed order of half the size |
| `Bracket.NoEmptyMatch` | cope/runner/scheduler.py:276-284 | with more than half the places taken no first-round match is empty |
| `Bracket.TopSeedsAreSpread` | cope/runner/scheduler.py:694-699 | the top 2^(k-m) seeds stand exactly at the starts of the aligned blocks of length 2^m |
| `Bracket.BlockLeader` | cope/runner/scheduler.py:694-699 | the top seed of a block is the seed at that place of the smaller bracket |
| `Knockout.MatchPoints` | cope/runner/scheduler.py:656-672 | the loop over the games, in half points; armageddon games do not score |
| `Knockout.ScoreIsTally` | cope/runner/scheduler.py:656-672 | the points of a match are two for each game won and one for each draw, armageddon games apart, counted from result and colours |
| `Knockout.ResolveDecides` | cope/runner/scheduler.py:436-516 | an engine wins exactly when it took the first armageddon game, or without one when the match is played in full and its tally is larger; a full tied match gets one armageddon game or a pair of extra games, and an unfinished one nothing |
| `Knockout.WinnerIsEarned` | cope/runner/scheduler.py:436-461 | a winner took an armageddon game by its rule or won and drew more |
| `Knockout.ResolvePicksAnEntrant` | cope/runner/scheduler.py:436-461 | a winner is one of the two engines |
| `Knockout.ResolveAddsGoodGames` | cope/runner/scheduler.py:479-516 | tiebreak games continue numbering and colour alternation, extra games come in pairs |
| `Knockout.ResolveMovesOn` | cope/runner/scheduler.py:436-476 | a match whose games are all decided is never stuck |
| `Knockout.StepMatchKeepsOk` | cope/runner/scheduler.py:345-366 | resolving a match keeps its rows in order and always makes progress |
| `Knockout.CreateRound` | cope/runner/scheduler.py:386-433 | the loop over the pairings: rows for real pairings, bye rows, and the number of games |
| `Knockout.RoundRowsAt` | cope/runner/scheduler.py:399-415 | without empty pairings there is one row per pairing, in order |
| `Knockout.Depth` | cope/runner/scheduler.py:277-279 | the least number of rounds with enough places |
| `Knockout.BracketSize` | cope/runner/scheduler.py:277-279 | the doubling loop reaches the smallest power of two with enough places |
| `Knockout.SeedBracket` | cope/runner/scheduler.py:280-283 | each place holds the participant with its seed, or nobody |
| `Knockout.SeededIsProper` | cope/runner/scheduler.py:268-285 | no empty first-round pairing, nobody seeded twice |
| `KnockoutRun.NewRoundOk` | cope/runner/scheduler.py:386-433 | a drawn round seats its entrants in order |
| `KnockoutRun.StepRoundOk` | cope/runner/scheduler.py:345-366 | resolving matches keeps the round in order |
| `KnockoutRun.WinnersAreProper` | cope/runner/scheduler.py:375-380 | winners of a finished round are all there, distinct, and entrants of their own match |
| `KnockoutRun.NextRoundKeepsInv` | cope/runner/scheduler.py:375-383 | round r has (bracket size)/2^r matches and its entrants are the winners of the adjacent matches before |
| `KnockoutRun.AdvancedKeepsInv` | cope/runner/scheduler.py:324-383 | every advance keeps the run invariant |
| `KnockoutRun.FirstRoundHasAMatch` | cope/runner/scheduler.py:268-285 | the first round is never made of byes only |
| `KnockoutRun.NextRoundWaits` | cope/runner/scheduler.py:344-351 | a freshly drawn round has a match to wait for |
| `KnockoutRun.MoreThanOneMatchLeft` | cope/runner/scheduler.py:370-373 | a round of one match is the last round of the bracket |
| `KnockoutRun.AdvancingAgainChangesNothing` | cope/runner/scheduler.py:324-383 | advancing again with no new result changes nothing, in every reachable state |
| `KnockoutAccounting.RowsSeatTheEntrants` | cope/runner/scheduler.py:399-415 | the engines on the rows are exactly the entrants, in order |
| `KnockoutAccounting.SeededHoldsTheField` | cope/runner/scheduler.py:276-284 | the bracket holds every participant once and nobody else |
| `KnockoutAccounting.RoundSplits` | cope/runner/scheduler.py:347-380 | everybody in a finished round goes on or loses, exactly one of the two |
| `KnockoutAccounting.FieldSplits` | cope/runner/scheduler.py:324-383 | field = entrants of round r + losers of the rounds before, as multisets |
| `KnockoutAccounting.EverybodyElseLostOnce` | cope/runner/scheduler.py:324-383 | a completed run has n-1 played matches; everybody but the champion lost exactly once |
| `KnockoutAccounting.ThereIsAChampion` | cope/runner/scheduler.py:370-373 | a completed run has a champion, who is a participant |
| `KnockoutTournament.OpenGamesAreInTheLastRound` | cope/runner/scheduler.py:324-383 | an open game belongs to a pending match of the current round |
| `KnockoutTournament.ResultKeepsInv` | cope/runner/scheduler.py:345-351 | a result arriving for an open game keeps the run invariant |
| `KnockoutTournament.KnockoutTournament.constructor` | cope/runner/scheduler.py:268-285 | no rounds yet |
| `KnockoutTournament.KnockoutTournament.GenerateFirstRound` | cope/runner/scheduler.py:268-285 | the seeded first round |
| `KnockoutTournament.KnockoutTournament.ResolveRound` | cope/runner/scheduler.py:344-366 | the loop over the matches: every match resolved, the waiting flag and the number of new games exact |
| `KnockoutTournament.KnockoutTournament.ResolveMatch` | cope/runner/scheduler.py:436-476 | a match gets its winner, tiebreak games, or nothing |
| `KnockoutTournament.KnockoutTournament.SettleRound` | cope/runner/scheduler.py:339-368 | the first half of the loop body |
| `KnockoutTournament.KnockoutTournament.DrawNextRound` | cope/runner/scheduler.py:375-383 | the second half: a strictly smaller round that waits |
| `KnockoutTournament.KnockoutTournament.Advance` | cope/runner/scheduler.py:324-383 | the unbounded loop terminates; new tables, completion flag and created games are exact |
| `KnockoutTournament.KnockoutTournament.RecordResult` | cope/runner/scheduler.py:345-351 | exactly one game of the current round changes |
| `Assignments.FirstPending` | cope/runner/local.py:687-697 | the first pending game of the tournament, or none when there is none |
| `Assignments.Chosen` | cope/runner/local.py:204-261 | the newest tournament that can be claimed, or none when none can |
| `AssignmentInvariant.BoundKept` | cope/runner/local.py:213-219 | a step that activates no game keeps every tournament within its concurrency |
| `AssignmentSteps.AddTournamentKeeps` | cope/db/repo.py:608-646 | creating a tournament keeps the invariant |
| `AssignmentSteps.EditTournamentKeeps` | cope/db/repo.py:756-789 | editing a draft, its concurrency included, keeps the invariant |
| `AssignmentSteps.SetStatusKeeps` | cope/db/repo.py:668-688 | every status change, abort with its mass update included, keeps the invariant |
| `AssignmentSteps.AbandonKeeps` | cope/db/repo.py:723-753 | abandoning the games of a tournament keeps assignments and games coupled |
| `AssignmentSteps.AddGameKeeps` | cope/db/repo.py:850-885 | creating a game keeps the invariant |
| `AssignmentSteps.DeleteTournamentKeeps` | cope/db/repo.py:839-847 | deleting a tournament with its games and assignments keeps the invariant |
| `AssignmentWorkers.ReleaseKeeps` | cope/db/repo.py:1893-1925 | releasing a worker's assignments keeps the invariant and leaves it with none |
| `AssignmentWorkers.DisconnectKeeps` | cope/db/repo.py:1803-1836 | disconnecting, with and without a session guard, keeps the invariant |
| `AssignmentWorkers.ConnectKeeps` | cope/runner/worker_server.py:641-678 | a reconnect, with other hardware too, keeps every active assignment on a suitable worker |
| `AssignmentWorkers.RevokeKeeps` | cope/db/repo.py:1839-1848 | revoking or deleting a worker keeps the invariant |
| `AssignmentWorkers.MintWorkerKeeps` | cope/db/repo.py:1265-1279 | a new worker row keeps the invariant |
| `AssignmentWorkers.ReportStatusKeeps` | cope/db/repo.py:1738-1754 | session-guarded status reports keep the invariant |
| `AssignmentHandlers.AssignKeeps` | cope/db/repo.py:1144-1189 | claiming keeps the invariant: concurrency, pinned profile, one row per game |
| `AssignmentHandlers.ClaimKeeps` | cope/runner/local.py:204-261 | the whole claim transaction keeps the invariant |
| `AssignmentHandlers.ValidatedIsHeld` | cope/runner/local.py:657-674 | a validated payload is the row that its own session's worker holds |
| `AssignmentHandlers.AcknowledgeKeeps` | cope/db/repo.py:1206-1220 | acknowledging keeps the invariant |
| `AssignmentHandlers.GoLiveKeeps` | cope/runner/local.py:264-276 | going live keeps the invariant although mark_game_live has no guard |
| `AssignmentHandlers.RecordMoveKeeps` | cope/runner/local.py:329-357 | recording a move keeps the invariant, the board of the current runner being the log |
| `AssignmentHandlers.FinishGameKeeps` | cope/runner/local.py:367-396 | finishing keeps the invariant although finish_game has no guard |
| `AssignmentHandlers.FailAssignmentKeeps` | cope/db/repo.py:1238-1262 | failing keeps the invariant although its second statement looks at the game only |
| `AssignmentSafety.StepKeepsInv` | cope/db/repo.py:1144-1262 | every transaction keeps the cross-table invariant |
| `AssignmentSafety.RunKeepsInv` | cope/db/repo.py:1144-1262 | and so does every interleaving of any length |
| `AssignmentSafety.GamesAndRowsAgree` | cope/db/repo.py:1144-1262 | in every reachable state a game is active exactly when its row is, live exactly when its row is, finished exactly when it has a result |
| `AssignmentSafety.TerminalForever` | cope/db/repo.py:1000-1042 | finished and abandoned are absorbing: record, result and moves never change again |
| `AssignmentSafety.StaleStepChangesNothing` | cope/runner/local.py:657-674 | a step under a superseded assignment changes no table |
| `AssignmentSafety.DeadForever` | cope/runner/local.py:657-674 | an assignment once lost is lost for good, over every run |
| `AssignmentSafety.RowIdentity` | cope/db/repo.py:1161-1184 | a game keeps its assignment row id across reassignments; a new claim brings an unused key |
| `AssignmentSafety.ActiveAssignmentsAreSafe` | cope/runner/local.py:204-261 | in every reachable state an active assignment belongs to an active game and a connected worker with the threads for an engine, the memory for two and the pinned hardware; no worker has two |
| `AssignmentSafety.ConcurrencyIsRespected` | cope/runner/local.py:213-219 | in every reachable state active games never exceed the concurrency |
| `AssignmentClaims.ActiveGamesAreBounded` | cope/runner/local.py:212-218 | in every reachable state the set of games of a tournament that are assigned or live is no larger than its concurrency |
| `AssignmentClaims.OffersAreClaimable` | cope/runner/local.py:208-236 | what makes a tournament claimable, in columns: running, fewer active games than its concurrency, threads for an engine, memory for two, the pinned hardware, a waiting game |
| `AssignmentClaims.ClaimGives` | cope/runner/local.py:204-261 | an idle session gets the first waiting game of the newest tournament that has one for its worker, and nothing exactly when none has; and everything that is written for it |
| `AssignmentEffects.ActionsByStatus` | cope/web/app.py:149-154 | what an administrator may do to a tournament in each status |
| `AssignmentEffects.AbortAbandons` | cope/db/repo.py:723-753 | aborting abandons exactly the unfinished games of the tournament and the assignments under way on them |
| `AssignmentEffects.CompletionIsExact` | cope/runner/local.py:700-724 | a running tournament ends exactly when it has games and all are finished or abandoned, as aborted when one is abandoned |
| `AssignmentEffects.DeletionIsExact` | cope/db/repo.py:839-847 | which tournaments can be deleted, and that exactly their games and assignments go |
| `AssignmentEffects.ReleaseFrees` | cope/db/repo.py:1893-1925 | what a worker holds ends and those games return to the pool; everything else stays |
| `AssignmentEffects.DisconnectIsGuarded` | cope/db/repo.py:1803-1837 | a disconnect for another session than the current one does nothing |
| `AssignmentEffects.ConnectionIsNew` | cope/runner/worker_server.py:641-678 | a connection releases what was held, opens a new session with the reported hardware, and keeps the reservation |
| `AssignmentEffects.RemovalIsExact` | cope/db/repo.py:1839-1966 | revoking and deleting a worker, row by row |
| `AssignmentEffects.StatusIsGuarded` | cope/db/repo.py:1738-1754 | a status report is taken from the current session only |
| `AssignmentEffects.SettingUpWrites` | cope/db/repo.py:668-698 | drafts, edits, starts, new games and new workers, row by row |
| `AssignmentEffects.AcknowledgeMarks` | cope/db/repo.py:1206-1220 | the current row is marked unless its game is already live |
| `AssignmentEffects.GoLiveMarks` | cope/runner/local.py:264-276 | game and row go live on a board set up from the recorded moves, before the game is over |
| `AssignmentEffects.MoveIsRecorded` | cope/runner/local.py:340-361 | the next ply, under the current key, exactly by the handler in charge |
| `AssignmentEffects.ResultIsStored` | cope/runner/local.py:380-400 | game and row are finished exactly by the handler in charge |
| `AssignmentEffects.FailureReturnsTheGame` | cope/db/repo.py:1238-1262 | under the current key the row ends and an active game returns to the pool, otherwise nothing but the handler changes |
| `AssignmentSafety.PinnedForever` | cope/db/repo.py:706-720 | the hardware profile of a tournament never changes once set |
| `AssignmentLog.CurrentBoardIsTheLog` | cope/runner/local.py:279-357 | the board of the runner whose assignment is current is the recorded game, whoever recorded it |
| `AssignmentLog.LogGrowsByCurrentMoves` | cope/runner/local.py:328-357 | only a runner with the current assignment adds to a log: one row, the next ply, the current key |
| `AssignmentLog.LogsAreGapFreeAndLegal` | cope/runner/local.py:279-396 | over all failed and reassigned runs the moves of a game are one legal, gap-free ply sequence with keys that never go back |
| `AssignmentLog.ApplyRecordedMoves` | cope/runner/local.py:733-741 | the replay loop succeeds exactly when the log is legal, and then sets up its board |
| `AssignmentDatabase.CountActive` | cope/runner/local.py:212-217 | the sum over the listed games |
| `AssignmentDatabase.NextPlayableGame` | cope/runner/local.py:687-697 | the first pending game |
| `AssignmentDatabase.NextWorkerAssignment` | cope/runner/local.py:204-261 | the scan answers none exactly when no tournament can be claimed |
| `AssignmentDatabase.Database.constructor` | cope/db/repo.py:1100-1113 | empty tables |
| `AssignmentDatabase.Database.Claim` | cope/runner/worker_server.py:796-828 | the claim transaction, its exact effect, and a validated payload |
| `AssignmentDatabase.Database.Assign` | cope/db/repo.py:1144-1189 | profile, game, upserted row with a stable id and a fresh key |
| `AssignmentDatabase.Database.Acknowledge` | cope/db/repo.py:1206-1220 | only the current, not yet live assignment is acknowledged |
| `AssignmentDatabase.Database.GoLive` | cope/runner/local.py:323-325 | marking first and validating again rolls back exactly the stale cases |
| `AssignmentDatabase.Database.RecordMove` | cope/runner/local.py:329-357 | the move is recorded if and only if the assignment is current |
| `AssignmentDatabase.Database.FinishGame` | cope/runner/local.py:367-396 | the result is stored if and only if the assignment is current |
| `AssignmentDatabase.Database.FailAssignment` | cope/db/repo.py:1238-1262 | the two guarded statements have the effect of the transaction |
| `AssignmentDatabase.Database.Release` | cope/db/repo.py:1893-1925 | the two mass updates |
| `AssignmentDatabase.Database.Disconnect` | cope/db/repo.py:1803-1836 | nothing for a session that is not current |
| `AssignmentDatabase.Database.Connect` | cope/runner/worker_server.py:641-678 | release, offline, then the new session |
| `AssignmentDatabase.Database.Revoke` | cope/db/repo.py:1839-1848 | release, unlink, delete |
| `AssignmentDatabase.Database.ReportStatus` | cope/db/repo.py:1738-1754 | only the current session changes the status |
| `GameRun.LatestWhiteRelativeScore` | cope/runner/local.py:778-787 | the backward loop finds the last evaluation and turns it to white's side |
| `GameRun.MaxMovesIsTheMoversVerdict` | cope/runner/local.py:751-787 | at the move limit the last evaluated move decides as its own mover sees it, whichever side that was |
| `GameRun.NoEvaluationIsADraw` | cope/runner/local.py:751-758 | without any evaluation the limit is a draw |
| `GameRun.RunningGame.constructor` | cope/runner/local.py:279-290 | a run starts from the recorded moves, with the result the position already has |
| `GameRun.RunningGame.RecordLoss` | cope/tournament/game_state.py:61-89 | the opponent of the loser wins |
| `GameRun.TurnsAreDecidedByReplies` | cope/tournament/game_runner.py:37-109 | a reply makes a move if and only if it is an answer before the flag with a legal move; otherwise the side to move loses |
| `GameRun.RunningGame.RunNextMove` | cope/tournament/game_runner.py:37-109 | a legal move in time is made; anything else loses for the side to move; None only from a decided game |
| `GameRun.RunningGame.Play` | cope/runner/local.py:328-373 | the loop terminates by the plies left and leaves exactly what one run with these replies leaves, cut short where the assignment turned out stale; complete when it stays current |
| `GameRun.AnyRunsLeaveOneGame` | cope/runner/local.py:279-373 | any sequence of runs, each with its own replies and its own end, leaves one legal gap-free game that extends the first record; every row is the reply of some run in its position; a result is justified by the replies of the run that came to it |
| `GameRun.InterruptionMayChangeTheResult` | cope/runner/local.py:279-325 | a game that is drawn when left alone is won when its run is cut short, because the next run searches again |
| `GameRun.FinalIsJustified` | cope/runner/local.py:328-373 | one run adds its own legal moves, none from a decided position or beyond the limit; its result is the board's own, a loss of the side to move, or the verdict at the limit |
| `WakeProtocol.QuietStepsShrink` | cope/runner/local.py:204-261 | claims, the steps of a running game, and setting up, stopping, finishing or deleting tournaments only shrink what is claimable |
| `WakeProtocol.ShrinkingAddsNoWork` | cope/runner/worker_server.py:777-794 | so they never give any capability new work |
| `WakeProtocol.CapabilityDecides` | cope/runner/worker_server.py:994-1000 | workers with the same capability are offered work alike |
| `WakeProtocol.SessionPinsCapability` | cope/runner/worker_server.py:641-678 | resources and hardware of a worker change only with its session |
| `WakeProtocol.CommitKeeps` | cope/runner/worker_server.py:520-531 | every committed transaction of the worker server, the web application or the scheduler keeps the wake invariant |
| `WakeProtocol.PassKeeps` | cope/runner/worker_server.py:777-794 | so does every pass of a serving loop, cached or scanned |
| `WakeProtocol.EmptyScansAreRemembered` | cope/runner/worker_server.py:777-794 | after an empty scan every pass with that capability in that generation parks without looking at the tables |
| `WakeProtocol.FinishWakeKeeps` | cope/runner/worker_server.py:520-531 | so does the end of a wake, which settles everything owed and unannounced before it |
| `WakeProtocol.NoLostWakeUp` | cope/runner/worker_server.py:520-556 | in every reachable state a loop is parked beside a game for its worker, or would be sent away by the cache, only while a wake is pending, or owed by a commit of the worker server or the web application, or after an unannounced commit since the last finished wake |
| `WakeProtocol.WakeBringsTheGame` | cope/runner/worker_server.py:342-390 | a wake, even that of the fallback timer, the return from waiting and the next pass give a parked idle worker with work a game |
| `WakeProtocol.WorkerServer.constructor` | cope/runner/worker_server.py:170-182 | generation zero, nothing pending, empty cache, over any tables |
| `WakeProtocol.WorkerServer.BeginWake` | cope/runner/worker_server.py:520-524 | due after a commit or from the timer, a wake is dropped exactly when one is pending |
| `WakeProtocol.WorkerServer.FinishWake` | cope/runner/worker_server.py:525-531 | next generation, empty cache, nothing pending |
| `WakeProtocol.WorkerServer.ClaimNextAssignment` | cope/runner/worker_server.py:777-812 | cache, claim transaction and cache entry have the effect of one pass |
| `WakeGap.NoLostWakeUpWithoutScheduler` | cope/runner/worker_server.py:520-556 | as long as only the worker server and the web application free work and their calls are made, no wake-up is lost |
| `WakeGap.SchedulerStrands` | cope/runner/local.py:129-152 | exactly when a commit of the scheduler leaves a parked loop beside a game with no wake on its way: it starts a tournament with a game the worker could take, or adds a game to a running one that suits the worker and is not full |
| `WakeGap.OnlyAWakeHelps` | cope/runner/worker_server.py:533-538 | until a wake call is made the parked loop stays parked, whatever else happens |
| `WakeGap.SchedulerStartStrands` | cope/runner/local.py:129-152 | a concrete run that ends that way, and the wake of the fallback timer that ends it |
| `Elo.Round` | cope/ratings.py:119-120 | rounding to the nearest, to the even one of two |
| `Elo.LessExpectedGainsMore` | cope/ratings.py:117-118 | with the same result, whoever was expected to score less gains more |
| `Elo.BetterResultGainsMore` | cope/ratings.py:110-118 | a win is worth 16 points more than a draw and a draw 16 more than a loss |
| `Elo.BetweenEquals` | cope/ratings.py:110-120 | between equals a win moves both by exactly 16 points and a draw nobody |
| `Elo.GameIsBounded` | cope/ratings.py:110-120 | the sum of the two ratings drifts by at most one micro-point and not at all unless the change is a tie; each side moves by at most 32_000_000; a winner never loses rating |
| `Elo.OppositeChanges` | cope/ratings.py:119-120 | what one side rounds up the other rounds down, except on ties |
| `Elo.ColoursDoNotMatter` | cope/ratings.py:110-120 | seen from the other side the game gives both engines the same ratings |
| `RatingBook.GamesKeepBook` | cope/ratings.py:110-168 | applying any list of games keeps the table equal to the replay of the log |
| `RatingBook.ReplayNeedsTwoEngines` | cope/ratings.py:110-149 | a single game keeps the replay if and only if two engines play it or it is drawn |
| `RatingBook.GamesWriteTwoRowsEach` | cope/ratings.py:122-145 | two history rows per game, in order, nothing rewritten |
| `RatingRules.GamesWrite` | cope/ratings.py:110-145 | every game of a commit writes, behind what was on record, its two rows: who against whom, the scores 1, 0 or a half, and the step from the old ratings to those after the game |
| `RatingRules.CountedExactly` | cope/ratings.py:79-84 | all games of a finished tournament count, and of an aborted one those with a result, in the order of the table |
| `RatingRules.RequestsAreAnswered` | cope/db/repo.py:2255-2290 | each refusal, the answer that a commit is already in progress, and the queued request, exactly when the columns say so |
| `RatingRules.RequestsAreQueued` | cope/db/repo.py:2291-2314 | a queued request adds one pending command and points the commit at it |
| `RatingRules.AppliesExactly` | cope/ratings.py:26-101 | a command applies if and only if it owns a pending or claimed commit of its category, the tournament is over, rated and linked with only decided games of participants, and nothing of it is on record |
| `RatingRules.CommandsEnd` | cope/runner/commands.py:35-59 | a command ends applied with its commit and games exactly when it is applicable and announced; otherwise failed with its linked commits, ratings and history as before |
| `RatingBook.CategoryDrift` | cope/ratings.py:110-149 | the ratings of a category drift by at most one micro-point per game |
| `RatingRules.DeletionsAreGuarded` | cope/db/repo.py:839-847 | a tournament goes with its commit only without history and without a pending, claimed or applied commit |
| `RatingSafety.FailedCommandLeavesTheBook` | cope/runner/commands.py:27-59 | a command ends applied or failed; failed leaves ratings and history as they were |
| `RatingSafety.ApplyKeepsInv` | cope/ratings.py:26-186 | a commit that applies writes its whole tournament and no other |
| `RatingSafety.ProcessOneKeepsInv` | cope/runner/commands.py:27-59 | every processed command keeps the invariant |
| `RatingSafety.RequestKeepsInv` | cope/db/repo.py:2255-2314 | requesting and asking again keep the invariant |
| `RatingSafety.DeleteKeepsInv` | cope/db/repo.py:839-847 | deleting a tournament keeps it |
| `RatingSafety.AppliedForever` | cope/ratings.py:52-57 | applied is absorbing; the rows of an applied tournament are never added to or changed |
| `RatingSafety.RatingsEqualReplay` | cope/ratings.py:26-186 | main result: over every run each rating is 1500 plus the sum of its changes and counts its rows; each tournament has no rows, or exactly two per counted game once applied |
| `RatingRunner.EnginesOf` | cope/ratings.py:103-105 | every engine of the games, each once |
| `RatingRunner.RateGame` | cope/ratings.py:110-149 | one game through the dictionaries and the log |
| `RatingRunner.RateInOrder` | cope/ratings.py:110-149 | the loop over the games mirrors the table that the same games would leave |
| `RatingRunner.UpsertRatings` | cope/ratings.py:151-168 | the loop of upserts writes exactly the engines of the commit |
| `RatingRunner.RateGames` | cope/ratings.py:103-168 | dictionaries and final upserts give the same table and log as rating game by game |
| `RatingRunner.CommandRunner.constructor` | cope/runner/commands.py:27-35 | empty store |
| `RatingRunner.CommandRunner.RequestCommit` | cope/db/repo.py:2255-2314 | which error, already requested, or queued with which command; the exact new store |
| `RatingRunner.CommandRunner.ApplyTournamentRatingCommit` | cope/ratings.py:26-186 | raises exactly in the error cases, otherwise the exact new store |
| `RatingRunner.CommandRunner.ProcessCommand` | cope/runner/commands.py:35-52 | savepoint, dispatch, and either keep or roll back |
| `RatingRunner.CommandRunner.NextPending` | cope/db/repo.py:2183-2226 | the pending command with the lowest id |
| `RatingRunner.CommandRunner.ProcessPendingRunnerCommands` | cope/runner/commands.py:27-59 | the loop processes the pending commands oldest first and leaves none |
| `MachineReservations.EnrolKeeps` | cope/db/repo.py:1378-1479 | enrolling a pool keeps every machine within its capacity |
| `MachineReservations.ConnectKeeps` | cope/runner/worker_server.py:680-725 | an accepted connection keeps every machine within its capacity if and only if the worker row still existed or the default reservation fits |
| `MachineReservations.DeletedWorkerOversubscribes` | cope/db/repo.py:1592-1636 | a run from empty tables after which the connection of a deleted worker is accepted and oversubscribes its machine |
| `MachineReservations.ReportKeeps` | cope/db/repo.py:1738-1754 | status reports of live sessions reserve nothing new |
| `MachineReservations.EndLoopKeeps` | cope/runner/worker_server.py:759-775 | the end of a serving loop keeps the invariant, with and without a failing cleanup |
| `MachineReservations.RestartKeeps` | cope/runner/worker_server.py:253-273 | a server restart keeps it |
| `MachineReservations.RemovalsKeep` | cope/db/repo.py:1839-1870 | revoking workers and pools keeps it |
| `MachineReservations.EnrolsExactly` | cope/db/repo.py:1378-1479 | a pool is enrolled exactly when it is pending, the machine's workers report its cores and RAM and all slots fit; and the rows it then has |
| `MachineReservations.ConnectsExactly` | cope/runner/worker_server.py:641-725 | a connection is accepted exactly when the reservation is the row's, the hardware is the machine's and there is room; and the row it then has |
| `MachineReservations.OtherWrites` | cope/db/repo.py:1839-1870 | new workers and pools, removals and the restart, row by row |
| `MachineReservations.LoopsWrite` | cope/runner/worker_server.py:747-775 | the end of a loop and a status report act on the worker of the current session only |
| `MachineReservations.MachinesAreNeverOversubscribed` | cope/runner/worker_server.py:680-725 | over every run without a resurrected row the counted workers of a machine agree on cores and RAM and fit into them |
| `MachineReservations.WorkerTables.constructor` | cope/db/repo.py:1282-1310 | empty tables |
| `MachineReservations.WorkerTables.CheckExisting` | cope/db/repo.py:1389-1428 | the check over the workers already there, with both sums |
| `MachineReservations.WorkerTables.EnrolWorkerPool` | cope/db/repo.py:1378-1479 | all slots and the enrolled pool, or nothing |
| `MachineReservations.WorkerTables.InsertSlots` | cope/db/repo.py:1433-1463 | the insertion loop |
| `MachineReservations.WorkerTables.RecordConnection` | cope/runner/worker_server.py:641-725 | a session exactly when the connection is accepted; the tables stay in order if and only if it is refused, the row was still there or the default fits |
| `Conversation.NextKeepsInv` | cope/runner/worker_server.py:404-502 | every step of either side keeps the shape of the conversation |
| `Conversation.EveryMessageIsAccepted` | cope/runner/worker_server.py:1057-1111 | in every reachable state no message was refused, each command but the one in flight has exactly one terminal reply, channels are empty between commands |
| `Conversation.MismatchMeansEarlierFailure` | cope/runner/worker_server.py:1091-1102 | an engine mismatch shows up exactly when the worker had failed on another engine before |
| `Conversation.DrainMakesProgress` | cope/worker/client.py:199-378 | no reachable state is stuck |
| `Conversation.BothReturnToIdle` | cope/worker/client.py:199-378 | from every reachable state both sides can return to idle together with every command answered |
| `Conversation.ServeAssignment` | cope/worker/client.py:235-342 | the receive loop answers every command once, for its own engine or with the first failure, and ends at the completion |
| `Conversation.ExecuteCommand` | cope/worker/client.py:264-322 | information, then one result or failure |
| `Conversation.WaitForFailedComplete` | cope/worker/client.py:360-378 | after a failure every command gets that failure until the completion |
| `Conversation.SendInfos` | cope/worker/client.py:425-458 | information is never a terminal reply |
| `Fen.ParsePrintedRank` | frontend/src/components/chess/chess.ts:122-141 | a printed rank is read back |
| `Fen.PrintParsedRank` | frontend/src/components/chess/chess.ts:35-51 | a canonical rank is printed back |
| `Fen.SplitJoin` | frontend/src/components/chess/chess.ts:36-37 | cutting undoes joining |
| `Fen.TextOfValue` | frontend/src/components/chess/chess.ts:169-172 | canonical numbers survive reading and writing |
| `Fen.ParseOfPositionFen` | frontend/src/components/chess/chess.ts:35-61 | parseFen(positionFen(p)) = p for every valid position |
| `Fen.PositionFenOfParse` | frontend/src/components/chess/chess.ts:122-141 | positionFen(parseFen(t)) = t for every canonical text |
| `Boards.CastlingAgrees` | cope/web/static/script.js:353-363 | the two castling rules move the same rook when the king starts on the e-file |
| `Boards.KingFromTheCFileDiffers` | frontend/src/components/chess/chess.ts:90-97 | a king from the c-file: the rook of the h-file moves on one board only |
| `Boards.SidewaysPawnDiffers` | frontend/src/components/chess/chess.ts:85-88 | a pawn that changes its file two ranks on: each board takes another square |
| `Boards.SamePlacement` | cope/web/static/script.js:371-392 | equal boards print the same placement |
| `Boards.SameRead` | cope/web/static/script.js:217-235 | both readers see the same board in a text of pieces and digits |
| `Boards.StartBoardsAgree` | cope/web/static/script.js:205-215 | both pages start from the same board |
| `BoardAgreement.PawnVictims` | cope/web/static/script.js:344-351 | the two en passant rules leave the same board if and only if the pawn goes one rank forward or nothing stands on either victim square |
| `BoardAgreement.KingRook` | cope/web/static/script.js:353-363 | the two castling rules leave the same board off the e-file if and only if the rook that one of them moves is not there to be seen |
| `BoardAgreement.AppliersAgreeExactly` | cope/web/static/script.js:335-369 | main result for one move: from the same board both appliers lead to the same squares if and only if the move is harmless there |
| `BoardAgreement.PrintedTellsTheBoard` | cope/web/static/script.js:371-392 | two boards of pieces print the same placement exactly when they show the same squares |
| `BoardAgreement.SameUnlessHarmful` | cope/web/static/script.js:335-392 | from the same board, the same placement is printed after every ply if and only if every move is harmless where it is played |
| `BoardAgreement.RegularIsHarmless` | frontend/src/components/chess/chess.ts:63-112 | forward diagonal pawn moves and kings from the e-file are harmless |
| `BoardGames.SameStart` | cope/web/static/script.js:217-235 | from every text that begins with a placement of pieces and digits, and from none or the start position, parseFen and positionFromFen set up the same board |
| `BoardGames.BoardsPrintTheSameExactly` | cope/web/static/script.js:217-392 | main result for whole games: set up from the same text and fed the same moves, both pages print the same placement after every ply if and only if every move is harmless where it is played |
| `BoardGames.RegularGamesPrintTheSame` | cope/web/static/script.js:217-392 | same placement after every ply of every list of regular moves |
| `BoardPages.RightsNeverReturn` | frontend/src/components/chess/chess.ts:188-212 | a castling right that is gone never comes back |
| `BoardMoves.MoveSquares` | frontend/src/components/chess/chess.ts:63-104 | the squares after a move, one by one: target, square left, en passant victim, castling rook and its home; everything else is as before |
| `BoardMoves.MoveCounts` | frontend/src/components/chess/chess.ts:106-112 | side to move, full-move number, half-move clock and en passant square after a move |
| `BoardMoves.RightsAreExact` | frontend/src/components/chess/chess.ts:188-212 | exactly the castling rights remain that were there and were not lost by a king, a rook leaving its corner or a rook captured there |
| `BoardPages.RightsComeFromBefore` | frontend/src/components/chess/chess.ts:188-212 | a move only removes rights; a king's move both of its own |
| `BoardPages.PositionsStayReadable` | frontend/src/components/chess/chess.ts:63-120 | whatever is played, the position stays valid and its text can be read back |
| `BoardPages.ReadRankInto` | frontend/src/components/chess/chess.ts:41-50 | the loop over the characters of a rank, in place |
| `BoardPages.ReadPlacement` | frontend/src/components/chess/chess.ts:35-51 | the loop over the ranks into a flat array |
| `BoardPages.WriteRank` | frontend/src/components/chess/chess.ts:125-138 | the loop over the files |
| `BoardPages.WritePlacement` | frontend/src/components/chess/chess.ts:122-140 | the loop over the ranks |
| `BoardPages.BuildPositions` | frontend/src/components/chess/chess.ts:114-120 | one position per ply |
| `BoardPages.ApplyUciMove` | cope/web/static/script.js:335-369 | the in-place applier on the matrix |
| `BoardPages.TakeEnPassant` | cope/web/static/script.js:344-351 | the captured pawn |
| `BoardPages.BringRook` | cope/web/static/script.js:353-363 | the castling rook |
| `BoardPages.MatrixRank` | cope/web/static/script.js:373-390 | the loop over the files |
| `BoardPages.BoardToFen` | cope/web/static/script.js:371-392 | the loop over the ranks from the eighth down |
| `StreamHub.ReadersSeeAPrefix` | cope/web/app.py:163-179 | for both queues and every interleaving a reader gets a gap-free prefix, and after a loss the end marker next |
| `StreamHub.NothingIsLostWithoutOverflow` | cope/web/app.py:163-179 | without an overflow a reader gets everything |
| `StreamHub.ClosedStaysClosed` | cope/web/app.py:169-179 | after an overflow a subscription only has its marker left |
| `StreamHub.OverflowIsExact` | cope/web/app.py:169-179 | an event is lost exactly to a closed queue or to one with a bound that holds so many entries |
| `StreamHub.NumbersCountEvents` | cope/web/app.py:240-247 | the first event of a topic has number 1, every other one more than the events of its topic before it |
| `StreamHub.NumbersRiseByOne` | cope/web/app.py:229-255 | consecutive events of a topic carry consecutive numbers |
| `StreamHub.StreamSubscription.constructor` | cope/web/app.py:164-167 | an empty open queue |
| `StreamHub.StreamSubscription.Enqueue` | cope/web/app.py:169-179 | append, drop when closed, or empty the queue and put the marker |
| `StreamHub.StreamSubscription.Get` | cope/web/app.py:1675-1686 | the reader's side |
| `StreamHub.EnqueueInternalEvent` | cope/web/app.py:389-399 | the queue without a closed flag |
| `StreamHub.Hub.constructor` | cope/web/app.py:183-193 | no topic has a number yet |
| `StreamHub.Hub.Publish` | cope/web/app.py:229-255 | every event gets the next number of its topic |
| `LiveGames.LatestExactly` | cope/web/app.py:322-386 | the latest word on an item is the one that nothing after it takes back |
| `LiveGames.EventsMean` | cope/web/app.py:322-386 | what each kind of event means for a game, and that nothing else changes it |
| `LiveGames.ChangesMean` | cope/web/app.py:336-386 | what becomes of the view: gone, replaced, or one part renewed |
| `LiveGames.LiveViewIsLatest` | cope/web/app.py:322-386 | after any sequence of events and prunings a game is shown if and only if something reported it and nothing removed it since; its engine data and clock are those of the last report of that kind that nothing replaced |
| `LiveGames.LookupsTellTheMap` | cope/web/app.py:289-301 | maps without empty entries that answer every lookup alike are equal |
| `LiveGames.LiveHub.constructor` | cope/web/app.py:183-193 | an empty map |
| `LiveGames.LiveHub.RecordLiveEvent` | cope/web/app.py:322-386 | the branches over the nested map do to every game of every tournament what the event means for it, and leave no empty tournament |
| `LiveGames.LiveHub.RecordReport` | cope/web/app.py:336-352 | a clear removes one game or the tournament, anything else replaces what is known |
| `LiveGames.LiveHub.Pop` | cope/web/app.py:327-334 | a game goes, and its tournament with the last one |
| `LiveGames.LiveHub.ClearTournamentLive` | cope/web/app.py:303-305 | all games of the tournament go |
| `LiveGames.LiveHub.PruneTournamentLive` | cope/web/app.py:307-320 | the loop keeps exactly the active games of the tournament |
| `LiveGames.LiveHub.TournamentLive` | cope/web/app.py:289-301 | reading gives the latest view of the game |

## Left out

- Chess itself (legal moves, outcomes, SAN, PGN): a legality predicate and an outcome function stand for it.
- Gauntlet tournaments, opening selection and opening offsets, announcements and chat: nothing the proofs need.
- The pair index of knockout tiebreak games and of Swiss games is not tied to uniqueness in the table; the round-robin keys are.
- `Assignments.FirstPending`: games are taken in order of their ids, which is the listing order by round and pair index for tables that only grow at the end.
- `AssignmentDatabase.Database.FinishGame`: validation and update are one atomic step; what another transaction could do between the two statements at a weaker isolation level is not modelled. The same holds for the other transactions.
- `AssignmentHandlers.FinishGameKeeps`: the completion of the tournament in the same transaction is a separate step here, so more interleavings are allowed than occur.
- The status `revoked` of worker rows: none of the modelled transactions writes it.
- Worker tokens, enrolment tokens and their expiry: who may connect is not the subject.
- `WakeProtocol.NoLostWakeUp`: that an owed wake call is made is the program order of the worker server and the web application, or the event that skips it, and not proved; nor is how long the fallback timer takes.
- Task cancellation, threads, sockets, heartbeats and presence flushing: only the order of messages and of committed transactions is modelled.
- `Conversation.EveryMessageIsAccepted`: a connection that breaks ends the conversation; reconnecting starts a new one, as in the tables' part.
- Compacting of search output lines and throttling of engine information: a message more or less does not matter to the protocol.
- `GameRun.RunningGame.Play`: clocks, moves-to-go and wall-clock probing enter through the replies of a run, which are arbitrary.
- `Elo.GameIsBounded`: the rounding of binary floating point and of the REAL column type is not modelled; rounding is to the nearest millionth, ties to even.
- The draw, resign and tablebase adjudication settings: no evaluator reads them; the resign threshold is a parameter of the move limit.
- `BoardPages.ApplyUciMove`: takes move texts as they are recorded (cope/runner/local.py:345); upper-case or padded texts, which only the other page normalises, are not compared.
- `BoardGames.BoardsPrintTheSameExactly`: texts that the two readers take differently, such as one with leading space or letters that are no pieces, are outside.
- Material summaries, captured-piece counters and everything drawn on the pages.
- The race between threads that publish to one topic: numbers are consecutive at publication, delivery is in the order of the hand-over.
- `LiveGames.LiveHub.RecordLiveEvent`: views are values, so the nested dictionaries a stored report shares with its published event are not modelled, nor entries of a wrong type, on which the original raises.
- Routes, forms, templates, administration, the command line and network defaults.
