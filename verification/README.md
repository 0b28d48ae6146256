# Queens: what the puzzle tools and the league server promise, proved

This project models two parts of the Queens repository and proves their central properties: the
puzzle engine (the Python tools that grow, solve, rate and deduplicate boards, and the Go gate that
re-counts solutions before a level is published) and the league server (rounds, groups, settlement,
submissions, leaderboards and the level catalogue). `dafny verify dfyconfig.toml` checks all of it.

Code that changes things in place is a class or a method with loops (`SolutionCounter`, `Search`,
`Solver`, `Generation`, `League`, `ResultStore`, `LevelTable`, `LevelService`, `BestTables`); each such
method is tied to a function of the old state, and the results are proved about those functions.

| file | what it holds |
|---|---|
| Boards, Enumeration, Publishing | the rule of the puzzle, exact backtracking with undo, the publishing gate |
| Puzzles, Deduction, Confluence | cell masks, soundness of the six techniques, confluence |
| SolverSteps, HumanSolver, Rating | which step the solver takes and why there is only one, the solver, the rating |
| Regions, Generator, CanonicalForm | connected regions, growing and repairing a board, the duplicate key |
| BestOfRound, RoundRuns, Standings, Tiers, Bots | best-N scores, the ceiling, ranking and zones, calendars, absence, openings, bots |
| Season | the league tables, their guarded statements, and the transition system over them |
| SeasonStatements | what each of those statements writes, and that it writes nothing else |
| SeasonInvariant, SeasonOnTime, SeasonRuns | what every step keeps, why no absence comes too late, and what therefore holds in every run |
| SeasonCatchUp, SeasonTransactions | `catchUp` and joining as a whole and called again, and histories of whole transactions |
| SeasonClock | the exact conditions under which a round may end in the middle of a transaction |
| SeasonOrder, SeasonCap, SeasonStanding | closing in any order, the capped top tier, and standings shown from queries |
| SeasonSettling, SeasonStore | the closer's loop, and the service transactions over mutable tables |
| SeasonResults | the league and the submissions as one server |
| SharedFixtures | cases of the fixture file that both runtimes share |
| SeasonExamples, SubmissionExample | three runs from an empty server on which a promise fails |
| Submissions, SubmissionRuns, SubmissionStore | the idempotent submit, its interleavings, and its transaction |
| LevelCatalog, Leaderboard | append-only publishing with an index, conditional upserts and ranks |
| Arithmetic, Finite, GroupIds | small facts about division, about counting finite sets, and about the order of group ids |

## How the system is modelled

- A mask is the set of the cell numbers whose bits are set. Random choices are arbitrary choices: every
  result holds for every draw. The size cap of a growing region is a parameter.
- A league state is the five tables plus a clock. A *step* is one guarded statement, or one group of
  statements that a transaction never separates. A transaction is a run of steps, a crash or a rollback
  is a shorter one, and the runs of `SeasonRuns` interleave steps of any number of transactions freely;
  that allows more than the server does, which runs one write transaction at a time. Each step says what
  the code has read before it takes it, and carries the clock readings it was read at. `SeasonStore` shows
  what the service methods do to the tables, in the order the code calls them and with a parameter for
  every reading of the clock that can fall into another round, and `SeasonCatchUp` that each is a run of
  steps. The ticker's close is the sequence `ClaimRound`, `OpenGroups`,
  `CloseGroup`, `FinishRound`, one transaction each.
- A run is *fair* if no round ends between the clock readings of one of its transactions. A start across
  the end of a round is allowed too, in a tier that freezes absences and with nothing of the player's to
  settle in that round; and so is any other late reading that does no harm: no absence takes anything from
  a membership still to be settled, and nobody joins with a membership left in an ended round. What needs
  a fair run says so; everything else holds in all runs.
- Two variables exist only for the proofs: `drained` (rounds some closer saw without an open group) and
  `applied` (how often a tier move hit a row on behalf of each summary). "Exactly once" means that
  `applied` is 1 for every summary and that there are no other entries.
- A tier is its position in the table. The league results hold for every table of the shape
  `SoundTable`: score tiers without rounds at the bottom, rounds of one length above, the first of those
  tiers a floor, and a capped tier only on top of one that fills its openings. The shipped table has it.
- The bots of a group are arbitrary ranked entries with ids of their own, so that nothing depends on
  which member count they were computed from; a tier that does not fill its groups has none. Player ids
  are ordered as numbers.
- A step of the solver is a technique, what it places or crosses out, the steps inside a trial, and the end of
  a trial that solved the board. Its text, its nesting depth (how many trials it is inside of) and its cost
  are not part of it.
- Percentages are rounded half away from zero, exactly. Times are unbounded integers; the one place where
  the width matters, the bot generator, has its 64-bit bound proved.
- The reading before the submit transaction and the transaction itself are two moves. What the server
  computes for a game (round, score, response, acceptance) is an arbitrary record.
- `SeasonResults` puts both together: accounts and memberships come and go on both sides at once, and
  storing a counted game takes the league's scoring step with the points of that game and the tally of its
  round. Everything else is a step of one side alone.
- Equality of content hashes is equality of boards.

## Where code and promise differ

- A second `catchUp` at the same instant is not always a no-op, as a test of the server expects: the due
  rounds are asked for once, for the tier before the close. `SeasonCatchUp.SecondCatchUp` says exactly
  when it is, and `SeasonExamples.SecondCatchUpIsNotIdle` gives a run at whose end it is not.
- The comment in `catchUp` says that no missed round can have a membership of the player's. That is so
  (`SeasonOnTime.OnTimeIsSpared`) as long as no round ends in the middle of a transaction. If one does, a
  start can leave its player settled up to the round before the one they sit in, and the next absence, in
  a tier that punishes it, takes them out of their tier, so that the "member moved tier" warning of the
  close is reached. `SeasonClock` states the exact conditions, and `SeasonExamples.LostMove` gives a run
  from the empty league.
- Replacing a forfeit does not check the owner again. `SubmissionRuns.CommitKeepsIff` says exactly when
  that matters, and `SubmissionExample.OvertakenRequest` gives a run on which it does: a request that
  outlives its owner's account.
- The ceiling on a round score counts each level once, while a game brought in from an earlier week can
  make a level count twice. `RoundRuns.HonestRoundRejectedIff` says exactly which rounds can be rejected.
- The run list is cut off after a fixed number of rows; its score and the score of the round agree
  exactly under the condition of `RoundRuns.TruncationExact`.
- The relegation count of an evaluation is the intended one; `Standings.RelegatedExactly` shows that it is
  also the real one as long as the two bands fit, which `Standings.CountsFit` proves.
- Groups of one round that are equally full are filled in the order of their ids as text, which from the
  thousandth group on is not the order of their numbers (`GroupIds.ThousandComesFirst`).
- A level found in the in-memory index may show an old position if it was published since the index was
  loaded; its board is always the stored one (`LevelCatalog.LevelService.LevelFor`).

## Model

| member | source | states |
|---|---|---|
| `Enumeration.AdjacentRowsSuffice` | server/internal/domain/board.go:63-88 | Checking only the column distance to the row above, next to distinct columns and regions, is the same as the eight-neighbour rule over all pairs of queens. |
| `Enumeration.ExtensionsExact` | tools/gen_boards.py:26-40 | From any partial placement the backtracking tree reaches exactly the solutions that continue it, each once. |
| `Enumeration.AllSolutionsExact` | tools/gen_boards.py:20-44 | The enumeration lists exactly the solutions of the board, without repeats. |
| `Enumeration.SolutionsInOrder` | tools/gen_boards.py:26-40 | The list is in lexicographic order: of two solutions the one with the smaller column in the first row in which they differ comes first. |
| `Enumeration.OneMeansUnique` | tools/gen_boards.py:43-44 | A board is uniquely solved by s exactly when its list of solutions is [s]. |
| `Enumeration.MarkOneMore` | server/internal/domain/board.go:63-88 | The column and region marks decide whether a queen fits, and marking one more queen keeps them exact. |
| `Enumeration.SolutionCounter.Rec` | server/internal/domain/board.go:66-85 | The recursion adds to the counter the number of solutions below its partial placement, capped at the limit, and leaves both mark arrays as it found them. |
| `Enumeration.SolutionCounter.Try` | server/internal/domain/board.go:72-84 | Trying one column adds exactly the solutions through it and undoes its marks. |
| `Enumeration.CountSolutions` | server/internal/domain/board.go:63-88 | The count is min(limit, number of solutions). |
| `Enumeration.Search.Rec` | tools/gen_boards.py:26-40 | The collecting recursion appends exactly the solutions below its placement, capped at the limit, and restores marks and placement. |
| `Enumeration.Search.Try` | tools/gen_boards.py:31-40 | One column appends exactly the solutions through it and undoes itself. |
| `Enumeration.Solve` | tools/gen_boards.py:20-41 | The result is the list of all solutions cut off at the limit. |
| `Publishing.CheckRegions` | server/internal/domain/board.go:13-36 | The shape checks pass exactly for a square board whose ids are 0..size-1, each in use; otherwise the error names something that is wrong: a row of another length, an id out of range, a region without a cell. |
| `Publishing.CheckSolution` | server/internal/domain/board.go:37-52 | The placement checks pass exactly for a solution in the row-by-row sense; otherwise the error names something that is wrong: a column outside, a column or region used twice, queens that touch. |
| `Publishing.ValidateBoard` | server/internal/domain/board.go:13-60 | A board is accepted exactly when its size is 4..20, it is well formed, and the stored solution is its only one; otherwise the error says what is wrong, and the checks before it passed. |
| `Publishing.CountDecides` | server/internal/domain/board.go:53-59 | For a board with a known solution, the number of solutions is one exactly when that solution is the unique one. |
| `Puzzles.UnitHasQueen` | tools/queens_solver.py:102-108 | In a full solution every row, column and region holds a queen. |
| `Puzzles.OnePerLine` | tools/queens_solver.py:68-108 | Queens that do not attack each other never share a row, a column or a region. |
| `Rating.MakePuzzle` | tools/queens_solver.py:69-108 | The masks describe the board: every cell has its row, column and renumbered region, and the attack sets hold exactly what a queen there rules out; an error exactly when the board does not have n regions. |
| `Rating.AttackMasks` | tools/queens_solver.py:90-101 | Each attack mask is the set of other cells sharing a line or touching. |
| `Rating.RankOrders` | tools/queens_solver.py:73-76 | Renumbering the region ids keeps their order and tells the same ids apart. |
| `Rating.RenamingKeepsSolutions` | tools/queens_solver.py:73-76 | Renumbering regions changes no solution. |
| `Deduction.PlaceKeeps` | tools/queens_solver.py:193-195 | Placing a queen on a candidate keeps the state invariant, shrinks the candidates, and keeps exactly the solutions through that cell. |
| `Deduction.RemoveKeeps` | tools/queens_solver.py:197-201 | Removing candidates that no solution uses keeps the invariant and the solutions and shrinks the candidates. |
| `Deduction.DeadIsHopeless` | tools/queens_solver.py:212-215 | A unit with neither queen nor candidate means that no solution lies between the queens and the candidates. |
| `Deduction.SolvedIsFull` | tools/queens_solver.py:217-218 | n queens of a reachable state are a full solution, and the only one left. |
| `Deduction.SingleIsForced` | tools/queens_solver.py:221-226 | The last candidate of an open unit is in every remaining solution. |
| `Deduction.CommonIsSafe` | tools/queens_solver.py:248-263 | A cell ruled out by every candidate of a unit is in no remaining solution. |
| `Deduction.ConfinedIsCommon` | tools/queens_solver.py:228-246 | What "confined" removes, "common" removes too. |
| `Deduction.ConfinedIsSafe` | tools/queens_solver.py:228-246 | "confined" removes no cell of any remaining solution. |
| `Deduction.SubsetUsesUp` | tools/queens_solver.py:265-299 | By the pigeonhole principle k lines whose candidates meet only k crossing lines take all the queens of those. |
| `Deduction.SubsetMeans` | tools/queens_solver.py:277-295 | A subset applies exactly when the candidates of k open units lie on k lines of the other kind with other candidates on them, and those are what goes. |
| `Deduction.SubsetIsSafe` | tools/queens_solver.py:265-299 | "subset" removes no cell of any remaining solution. |
| `Deduction.FailedTrialIsSafe` | tools/queens_solver.py:326-345 | A cell whose trial leads to a hopeless state is in no remaining solution. |
| `Confluence.RestDecidesChain` | tools/queens_solver.py:310-324 | Where forced queens end does not depend on the order: a cell fails the chain exactly when one maximal run of forced queens from it is dead. |
| `Confluence.ChainFailureIsSafe` | tools/queens_solver.py:310-324 | "chain" removes no cell of any remaining solution. |
| `Confluence.RunKeeps` | tools/queens_solver.py:355-380 | Every state of a run keeps the invariant and has exactly the solutions of the first. |
| `Confluence.RunStaysAbove` | tools/queens_solver.py:355-380 | A run never falls below a state in which no rule fires. |
| `Confluence.RunsAgree` | tools/queens_solver.py:355-380 | Two finished runs with "single" and "common" on end alike, in any order of units and steps, with "confined" on or off in either. |
| `Confluence.ConfinedIsRedundant` | tools/test_queens_solver.py:128-133 | For every board and every order, {single, confined, common} solves it exactly when {single, common} does, with the same queens. |
| `SolverSteps.StepAdvances` | tools/queens_solver.py:197-201 | Applying any returned step keeps the invariant and the solutions and strictly shrinks the candidates. |
| `SolverSteps.TakesOnce` | tools/queens_solver.py:357-380 | In a state the solver takes one step: the first thing found, in the order of units, lines, families and combinations, by the cheapest technique in use that finds anything; for trial and error, the first candidate, units with few candidates first, whose trial does not get stuck. |
| `SolverSteps.ReplaysOnce` | tools/queens_solver.py:355-380 | Two runs from one state to their ends take the same steps and come to the same end, nested trials included: board and options determine the log. |
| `SolverSteps.NothingTaken` | tools/queens_solver.py:379-380 | Where nothing applies, which a trial that gets stuck is part of, no step is taken. |
| `HumanSolver.Solver.OpenUnits` | tools/queens_solver.py:203-210 | Lists exactly the units without a queen. |
| `HumanSolver.Solver.Check` | tools/queens_solver.py:212-215 | Fails exactly when some unit has neither queen nor candidate. |
| `HumanSolver.Solver.PlaceAt` | tools/queens_solver.py:193-195 | The state becomes the one with the queen placed and its attacked cells struck out. |
| `HumanSolver.Solver.ApplyStep` | tools/queens_solver.py:197-201 | The state becomes the one after the step; an adopted branch replaces it. |
| `HumanSolver.Solver.TSingle` | tools/queens_solver.py:221-226 | Returns a sound step, or none exactly when no open unit has a single candidate; the step is that of the first unit with one candidate left. |
| `HumanSolver.Solver.TConfined` | tools/queens_solver.py:228-246 | Returns a sound step, or none only when no unit is confined with something to remove; the step is that of the first unit within a line with something else in it, and the first such line. |
| `HumanSolver.Solver.CommonOf` | tools/queens_solver.py:254-258 | Computes the candidates that every cell of the unit rules out. |
| `HumanSolver.Solver.TCommon` | tools/queens_solver.py:248-263 | Returns a sound step, or none only when no unit has common cells to remove; the step is that of the first unit whose candidates rule out a common cell. |
| `HumanSolver.Solver.TSubset` | tools/queens_solver.py:265-299 | Returns a sound step, or none only when no family has a subset of size 2 up to the limit with something to remove; the step is that of the first family, the smallest combination, and of those the first. |
| `HumanSolver.Solver.Combinations` | tools/queens_solver.py:280-298 | Walks all k-combinations in the order of itertools: returns the first that applies, or none only when none of them does. |
| `HumanSolver.Solver.PropagateSingles` | tools/queens_solver.py:301-308 | Places forced queens to the end: reports failure exactly when the state it reaches is dead, and otherwise nothing is forced any more; it terminates. |
| `HumanSolver.Solver.TChain` | tools/queens_solver.py:310-324 | Removes exactly the candidates whose forced queens run into a contradiction. |
| `HumanSolver.Solver.UnitsByCount` | tools/queens_solver.py:329-331 | Lists exactly the open units with candidates, fewest candidates first. |
| `HumanSolver.Solver.TGuess` | tools/queens_solver.py:326-353 | Returns a sound step, an adopted branch included, decided by the first trial that does not get stuck; none only when no trial is allowed any more or the trial of every candidate gets stuck. |
| `HumanSolver.Solver.Trial` | tools/queens_solver.py:333-351 | One trial branch gives a sound step with the steps taken inside it, which lead from the queen tried to a dead or to a solved state; or none only when what follows from the cell loses no solution through it and is itself stuck. |
| `HumanSolver.Solver.Deduce` | tools/queens_solver.py:355-380 | Terminates at every depth; the list of steps replays from the state it was given to the one it leaves, each step the one the solver takes there; "contradiction" means the state it was given has no solution, "solved" that n queens stand, "stuck" that no solution was lost and that no technique in use applies any more, subset, chain and every nested trial included; and its result is a run in the sense of the confluence lemmas. |
| `Rating.SolutionIsFull` | tools/queens_solver.py:68-108 | A solution of the grid is a full solution of the masks. |
| `Rating.FullIsSolution` | tools/queens_solver.py:409-413 | Reading the queens of a full solution row by row gives a solution of the grid. |
| `Rating.BruteForce` | tools/queens_solver.py:126-152 | The reference solver finds exactly one solution exactly when the board is uniquely solvable. |
| `Rating.Rate` | tools/queens_solver.py:391-426 | "unique" is true exactly for uniquely solvable boards, a reported solution is one and is where the queens stand at the end, "contradiction" means there is none, and the disagreement error never happens; the steps replay from the open board to that end, none only for an empty board or one that is not solved, and counts, hardest technique and stars are those of the steps. |
| `Rating.OneRating` | tools/queens_solver.py:391-426 | Under given options a board has one rating, step for step: steps, status, counts, hardest technique, stars and solution. |
| `Rating.CommonCoversConfined` | tools/test_queens_solver.py:128-133 | Rated with {confined, common} and with {common}, a board gets the same status. |
| `Regions.RegionConnected` | tools/gen_boards.py:46-59 | True exactly when the cells of the region, without the skipped one, are nonempty and 4-connected. |
| `Regions.Visit` | tools/gen_boards.py:53-58 | Visiting a cell adds exactly its unseen neighbours in the region. |
| `Regions.FilledDecides` | tools/gen_boards.py:52-59 | The flood fill sees every cell exactly when the region is connected. |
| `Regions.ConnectedGrows` | tools/gen_boards.py:127-128 | A connected region stays connected when a neighbouring cell joins it. |
| `Generator.FrontierExists` | tools/gen_boards.py:112-121 | While a cell is unassigned, some assigned cell has an unassigned neighbour. |
| `Generator.Generation.FrontierPairs` | tools/gen_boards.py:113-121 | Collects exactly the pairs of an assigned cell and an unassigned neighbour. |
| `Generator.GrowOne` | tools/gen_boards.py:125-129 | One growth step keeps every region connected around its queen and leaves one cell fewer. |
| `Generator.UnassignedCount` | tools/gen_boards.py:111 | The counter starts at the number of unassigned cells. |
| `Generator.Generation.GrowRegions` | tools/gen_boards.py:100-130 | Every cell is assigned, and every region is connected and holds its own queen; the board grew from the queens alone, one cell at a time. |
| `Generator.Generation.GrowCell` | tools/gen_boards.py:112-129 | One cell joins the region of a neighbour, a region below the size limit whenever one of those has a cell to take; the size counters stay exact. |
| `Generator.Generation.HandOver` | tools/gen_boards.py:74-90 | A cell changes hands exactly when another region is next to it and its own stays in one piece without it; then it goes to a region next to it, and nothing else changes. |
| `Generator.TwoSolutions` | tools/gen_boards.py:69-73 | Not exactly one solution found means two, so there is always one other than the intended. |
| `Generator.MoveKills` | tools/gen_boards.py:65-67 | After the move the alternative is no solution any more. |
| `Generator.MoveKeeps` | tools/gen_boards.py:74-90 | The move keeps every region nonempty and connected and the intended placement a solution. |
| `Generator.Generation.MoveBorder` | tools/gen_boards.py:73-91 | A move hands one queen cell of the alternative that is not intended to a region next to it, kills the alternative and keeps the board repairable; no move is made only when none of those cells can change hands. |
| `Generator.Generation.Repair` | tools/gen_boards.py:61-92 | Returns true exactly when the intended placement is the only solution of the board it leaves, which it reaches by such moves alone; gives up only when it has made all its moves or on another solution none of whose cells can change hands. |
| `Generator.DrawnIsSolution` | tools/gen_boards.py:94-98 | A drawn permutation solves every board grown around it. |
| `Generator.Attempt` | tools/gen_boards.py:132-140 | A board is kept exactly when the drawn placement is its only solution, and then, at a plausible size, passes the gate in front of publishing; one that is thrown away was given all 60 moves or is stuck. |
| `CanonicalForm.LabelsDecidePattern` | tools/gen_boards.py:155-156 | Two readings get equal labels exactly when they are equal up to renaming. |
| `CanonicalForm.VariantsCompose` | tools/gen_boards.py:146-160 | A variant of a variant is one of the eight variants. |
| `CanonicalForm.VariantUndone` | tools/gen_boards.py:146-160 | Every variant is undone by a variant. |
| `CanonicalForm.SameShapeIsRenaming` | tools/gen_boards.py:146-160 | Equal up to names means that a bijection of the regions maps one board to the other. |
| `CanonicalForm.CanonicalIsComplete` | tools/gen_boards.py:146-160 | Two boards have a common canonical key exactly when a rotation or mirroring and a renaming map one to the other. |
| `CanonicalForm.ReadKey` | tools/gen_boards.py:155-156 | The dictionary loop computes the labels in reading order. |
| `CanonicalForm.LabelsCountUp` | tools/gen_boards.py:155-156 | A region that comes up for the first time gets the number of regions before it, and keeps it. |
| `CanonicalForm.LexMeans` | tools/gen_boards.py:157-158 | Keys are compared by the first place where they differ; a beginning of the other comes first. |
| `CanonicalForm.FourRotations` | tools/gen_boards.py:149-159 | The inner loop keeps the smallest key of the four rotations. |
| `CanonicalForm.Canonical` | tools/gen_boards.py:146-160 | The result is the smallest of the eight keys. |
| `BestOfRound.BestIsUpperBound` | server/internal/domain/league.go:430-448 | No choice of at most N games sums to more than the round score. |
| `BestOfRound.BestIsReached` | server/internal/domain/league.go:430-448 | Some choice of at most N games reaches it. |
| `BestOfRound.NewGameAdds` | server/internal/domain/league.go:450-463 | A new game adds exactly what it scores above the cut. |
| `BestOfRound.TopRowsSuffice` | server/internal/store/sqlite/results.go:73-93 | Reading only the best N rows loses nothing, not even for the next game. |
| `BestOfRound.SortedPrefixIsBest` | server/internal/domain/league.go:437-447 | The first N of the sorted scores sum to the best choice of N. |
| `BestOfRound.RoundScore` | server/internal/domain/league.go:430-448 | The total is the best-N sum, or the whole sum in the other mode, for any order of the games. |
| `BestOfRound.CutScore` | server/internal/domain/league.go:452-463 | The N-th best score, or 0 while fewer games are in. |
| `RoundRuns.MarkRuns` | server/internal/service/runs.go:73-106 | A game is marked exactly when it counts and, with rounds and a best N, fewer than N counted games stand before it; the marked games sum to the round score when the list is best first, and without rounds to the sum of the counted ones. |
| `RoundRuns.CountedMeans` | server/internal/service/runs.go:73-106 | The counted games of a list are all of its counted games, each as often as it was played. |
| `RoundRuns.TruncationExact` | server/internal/store/sqlite/results.go:123-141 | A truncated run list gives the score of the round exactly when N counted games came back or those cut off are worth nothing. |
| `RoundRuns.PossibleRoundFits` | server/internal/service/play.go:705-751 | Games on distinct eligible levels, each at most twice its base, never sum to more than twice the N largest bases. |
| `RoundRuns.WithinCeiling` | server/internal/service/play.go:714-751 | Accepts exactly when the best-N sum with the new game is at most the ceiling. |
| `RoundRuns.CeilingNeverRejects` | server/internal/service/play.go:714-751 | Games on different eligible levels, each at most twice its base, are never rejected, although only the top N stored scores are read. |
| `RoundRuns.HonestRoundRejectedIff` | server/internal/service/play.go:696-751 | With a level played twice in one round, as a game brought in from an earlier week makes possible, honest scores can be rejected exactly when the N best worths counted per game exceed the N largest bases counted per level. |
| `RoundRuns.DistinctNeverRejected` | server/internal/service/play.go:696-705 | Without such a repeat that never happens. |
| `RoundRuns.SameLevelTwice` | server/internal/service/play.go:496-504 | It does happen, with every level eligible: n games on the best levels, the top one twice, can be rejected exactly when the top level is worth more than the n-th largest base (0 if there are fewer levels). |
| `RoundRuns.EligibleMeansStartable` | server/internal/store/sqlite/levels.go:209-235 | The query returns exactly the levels started inside the round or startable at some moment of it. |
| `RoundRuns.ShortCooldownAllowsAll` | server/internal/store/sqlite/levels.go:209-235 | Every level is eligible whatever its last start exactly when the cooldown is no longer than the round. |
| `Standings.SortMembers` | server/internal/domain/league.go:489-505 | The result is a ranked permutation of the members. |
| `Standings.RankingUnique` | server/internal/domain/league.go:489-505 | There is only one ranking of a set of rows. |
| `Standings.RankedMeans` | server/internal/domain/league.go:489-505 | A ranking is a list in which scores fall, and among equals games, then submit times, then ids rise. |
| `Standings.RankIsPosition` | server/internal/store/sqlite/league.go:307-319 | Counting the rows before me and adding one gives my position in the ranking. |
| `Standings.CountsFit` | server/internal/domain/league.go:520-556 | The promotion and relegation bands never overlap and never leave the group. |
| `Standings.CountsMean` | server/internal/domain/league.go:520-556 | The two numbers, and no others, are: none for an empty group; in a tiny one at most one up, and that exactly when the leader has the score and somebody is to go up; otherwise the integers nearest to the percentages, halves away from zero, with the openings or nobody in place of the first, and what is left of the group in place of a second that does not fit. |
| `Standings.Evaluate` | server/internal/domain/league.go:568-590 | The result is the evaluation of the one ranking of the entries, whatever order they arrive in: rank i + 1 for row i, up the first rows as far as they scored, down the last, as many as the numbers of the group say, and the reported counts are the number that go up and the number to go down. |
| `Standings.EvaluationIgnoresOrder` | server/internal/domain/league.go:568-590 | Two orders of the same entries are ranked alike. |
| `SeasonStanding.CountIsSize` | server/internal/service/league.go:527-545 | The stored member count of an open group is the size of its ranking. |
| `SeasonStanding.GlobalPlacement` | server/internal/service/league.go:527-545 | In every state any run can reach, with the stored count for the size, the queries for rank, leader and promote count give each member of a global group the rank and zone, and the group the promote and relegate counts, of its evaluation. |
| `Standings.RelegatedExactly` | server/internal/domain/league.go:568-590 | The reported relegation count is the number of members in the relegation zone. |
| `Standings.PromotedAtMost` | server/internal/domain/league.go:568-590 | Promotions stop at the count and reach it when enough of the group scored. |
| `Tiers.RoundContains` | server/internal/domain/league.go:253-276 | A time has round index k exactly when it lies in [start k, end k), before the epoch too. |
| `Tiers.CalendarMeans` | server/internal/domain/league.go:245-276 | Rounds follow each other without a gap, each as many days long as the tier says, one of them starting on Monday 1970-01-05; a tier without rounds has round 0 only, which starts and ends at 0. |
| `Tiers.EndedBefore` | server/internal/domain/league.go:253-276 | A round has ended exactly when a later one is running. |
| `Tiers.CollapseAbsence` | server/internal/service/league.go:59-86 | The collapsed walk gives the tier that the missed rounds give one by one; the bound on the steps never cuts it short. |
| `Tiers.FloorHolds` | server/internal/domain/league.go:213-225 | Absence never leads from a floor tier or above to below it, and never up. |
| `Tiers.LeavingIsExact` | server/internal/domain/league.go:410-424 | The relegations the openings assume are those the close of the capped tier makes. |
| `Tiers.SlotsMean` | server/internal/domain/league.go:393-408 | The slots of a capped tier, and no other number, lie between its minimum and its maximum, take one place per d players below beyond the minimum, and leave no place to give short of the maximum. |
| `Tiers.OpeningsMean` | server/internal/domain/league.go:410-424 | The openings are what is left of those places after the ones that stay taken. |
| `Tiers.PromotedFillOpenings` | server/internal/domain/league.go:393-424 | At most the openings are promoted, and all of them exactly when the tier below has enough members with a score. |
| `Tiers.CapHolds` | server/internal/domain/league.go:393-424 | After both closes a capped tier that took anybody in has at most its maximum, and beyond its minimum d players of the tier below for every place; and it is that full exactly when the tier below can fill the openings. |
| `Bots.PmStaysGood` | server/internal/domain/league.go:305-311 | The generator state stays in [1, 2^31-2] and every product fits 64 bits. |
| `Bots.PlanIsGood` | server/internal/domain/league.go:344-362 | Every plan has between one game and the maximum, and a start share and skill in range. |
| `Bots.PlanSettings` | server/internal/domain/league.go:345-354 | Without settings a bot plays up to 15 games worth 400; fewer than one game means one, a negative worth means none. |
| `Bots.PlayTimesOrdered` | server/internal/domain/league.go:362-374 | Play times are nondecreasing in the game number, so leaving the loop at the first later one is exact. |
| `Bots.PlayedInsideRound` | server/internal/domain/league.go:362-374 | Every game is played inside the round. |
| `Bots.BotProgress` | server/internal/domain/league.go:344-379 | Games, score and last submit are those of exactly the games played by that instant. |
| `Bots.PlayGames` | server/internal/domain/league.go:362-374 | The loop collects exactly the games played by that instant, in order. |
| `Bots.ProgressGrows` | server/internal/domain/league.go:344-379 | Games and score of a bot never decrease over the round. |
| `Bots.AllInByEnd` | server/internal/domain/league.go:344-379 | By the end of the round every game is in. |
| `Bots.NothingBeforeStart` | server/internal/domain/league.go:344-379 | Before the round starts nothing is. |
| `Season.ShippedIsSound` | server/internal/domain/league.json:1-16 | The shipped tier table has the shape the league results assume. |
| `SharedFixtures.RoundsOfTheTable` | server/internal/domain/parity_test.go:346-362 | Round indices and bounds in every tier of the shipped table (lines 101819-102140 of shared/fixtures/league_cases.json). |
| `SharedFixtures.Transitions` | server/internal/domain/parity_test.go:422-428 | The tier after each outcome in each tier of the shipped table (lines 102298-102448 of shared/fixtures/league_cases.json). |
| `SharedFixtures.InactiveOutcomes` | server/internal/domain/parity_test.go:429-433 | The outcome of a round without a game in each tier (lines 101559-101584 of that file). |
| `SharedFixtures.CountsOfGroups` | server/internal/domain/parity_test.go:377-385 | Numbers up and down by score, by percentage with exact halves, in tiny groups, with openings, and where the bands do not fit (lines 4687-34208 of that file). |
| `SharedFixtures.SlotsOfTheTop` | server/internal/domain/parity_test.go:363-369 | Slots of the shipped top tier over populations around its minimum, its steps and its maximum (lines 102186-102297 of that file). |
| `SharedFixtures.OpeningsOverSix` | server/internal/domain/parity_test.go:370-376 | Openings over six players below (lines 101585-101766 of that file). |
| `SharedFixtures.OpeningsOverMore` | server/internal/domain/parity_test.go:370-376 | Openings over more of them, down to none and up to the maximum (the same lines). |
| `SharedFixtures.JonasPlans` | server/internal/domain/parity_test.go:451-465 | The plan a bot of the file draws from the generator (lines 635-724 of that file). |
| `SharedFixtures.JonasPlays` | server/internal/domain/parity_test.go:451-465 | The times and scores of its games (the same lines). |
| `SeasonInvariant.RegisterKeeps` | server/internal/service/identity.go:90-131 | Registering keeps the league invariant. |
| `SeasonInvariant.DeleteKeeps` | server/internal/service/identity.go:198-208 | Deleting an account in the middle of anything keeps the league invariant, the member counts of open groups included. |
| `SeasonInvariant.PairIsShared` | server/internal/service/league.go:247-265 | Whichever of the two twin rounds is claimed second freezes the pair of the first. |
| `SeasonInvariant.ClaimKeeps` | server/internal/service/league.go:197-216 | Claiming an ended round keeps the league invariant. |
| `SeasonInvariant.FinishKeeps` | server/internal/store/sqlite/league.go:81-86 | Finishing a round that was seen without an open group keeps the league invariant: a closed round has none. |
| `SeasonInvariant.SettlingHits` | server/internal/service/league.go:323-347 | Settling a member always inserts the summary and always finds the player in the tier of the round: the warning branch is unreachable. |
| `SeasonInvariant.CloseApplied` | server/internal/service/league.go:323-347 | Every summary a close writes comes with exactly one tier move. |
| `SeasonInvariant.CloseKeeps` | server/internal/service/league.go:278-350 | Closing a group keeps the league invariant. |
| `SeasonInvariant.AbsenceIsNew` | server/internal/service/league.go:92-100 | The inactive summary is always inserted. |
| `SeasonInvariant.AbsenceKeeps` | server/internal/service/league.go:59-113 | Collapsing an absence keeps the league invariant, whatever its readings of the clock are, if nothing left to settle lies in an ended round or in a tier that punishes it; SeasonOnTime.TimelyIsHarmless derives that. |
| `SeasonInvariant.PromoteKeeps` | server/internal/service/play.go:761-804 | A promotion by score keeps the league invariant. |
| `SeasonInvariant.JoinCounts` | server/internal/store/sqlite/league.go:132-140 | A join keeps every stored count equal to its rows and within the hard limit. |
| `SeasonInvariant.JoinGlobal` | server/internal/service/league.go:397-431 | A global tier never opens a second group of one quarantine flag. |
| `SeasonInvariant.JoinKeeps` | server/internal/service/league.go:361-440 | Joining the running round keeps the league invariant when the player has nothing to settle in an ended round. |
| `SeasonInvariant.OneUnsettled` | server/internal/service/league.go:43-54 | A player has at most one membership left to settle, in the tier they are in. |
| `SeasonInvariant.StepKeeps` | server/internal/store/sqlite/db.go:102-142 | Every step of every transaction keeps the league invariant, but for an absence or a join that comes after the end of a round the player still has to be settled in. |
| `SeasonInvariant.StepKeepsTables` | server/internal/store/sqlite/db.go:102-142 | Every step without exception keeps rounds, groups, member rows and stored counts consistent. |
| `SeasonStatements.CloseGroupSummaries` | server/internal/service/league.go:301-331 | A close writes a summary for exactly those members who did not leave and have none yet, with the tier one up, one down or the same as their zone says, their rank, the score of the round and the points they had. |
| `SeasonStatements.CloseGroupPlayers` | server/internal/service/league.go:332-347 | And moves exactly the players who got a new summary and are in the tier of the round, to the tier it names, with their points restarted by a change, settled up to the end of the round. |
| `SeasonStatements.AbsenceMeans` | server/internal/service/league.go:66-113 | A missed absence leaves the player where missing the rounds one by one would, with one summary for them under the round before the booked one. |
| `SeasonStatements.DeleteMeans` | server/internal/service/identity.go:198-208 | Deleting an account takes its memberships and summaries, and its place in the count of every open group it had not left, and nothing else. |
| `SeasonStatements.PlacementMeans` | server/internal/service/league.go:375-431 | A player goes into the wished group while it is open and below the hard limit, else into the fullest group on offer, the smaller textual id first, else, exactly when none is on offer, into a new one. |
| `SeasonStatements.PromoteByScoreMeans` | server/internal/service/play.go:753-804 | A promotion by score takes the points of the threshold and puts the player one tier up with none, with a summary, and with the running membership marked as left. |
| `SeasonStatements.EnsureRoundMeans` | server/internal/store/sqlite/league.go:23-29 | A round is opened once, open and without counts, to end where the calendar of its tier says. |
| `SeasonOnTime.OnTimeIsSpared` | server/internal/service/league.go:54-63 | None of the missed rounds has a membership: a caught-up player who missed rounds has nothing to settle but what lies in a running round of a tier that freezes absences. |
| `SeasonOnTime.TimelyIsHarmless` | server/internal/service/league.go:54-63 | As long as everybody is settled up to the round they still sit in, an absence or a join whose transaction read the clock within one round finds nothing that it could take, and so does a start across the end of a round in a tier that freezes absences if nothing was left to settle in that round. |
| `SeasonOnTime.TimelyKeeps` | server/internal/service/league.go:54-63 | And every such step leaves everybody settled up to the round they still sit in. |
| `SeasonRuns.TimelyRunIsHarmless` | server/internal/service/league.go:22-114 | So in a run whose transactions read the clock each within one round no absence and no join comes too late. |
| `SeasonRuns.RunKeeps` | server/internal/service/league.go:142-193 | Every fair interleaving of any length, crashes included, keeps the league invariant. |
| `SeasonRuns.SettledExactlyOnce` | server/internal/service/league.go:274-350 | In every state a fair run can reach from the empty league, a membership has exactly one round summary once its group is closed and none before, with the outcome of its verdict, and its tier move was applied exactly once. |
| `SeasonRuns.AtMostOneToSettle` | server/internal/service/league.go:43-54 | In every such state of a fair run a player has at most one membership to settle, in the current tier, in a round that is not closed. |
| `SeasonRuns.CountsAreRows` | server/internal/store/sqlite/league.go:132-185 | In every state any run can reach, whatever its clock readings, the count of an open group is the number of its rows, at most the hard limit, and a global tier has one group per quarantine flag. |
| `SeasonRuns.RandomFillStops` | server/internal/service/league.go:397-411 | A join that does not follow a friend leaves the group within the random-fill size. |
| `SeasonRuns.RunAdvances` | server/internal/store/sqlite/league.go:71-86 | Along any run, whatever its clock readings, rounds only move on, frozen counts never change, closed groups stay closed, and settled rows and summaries are not touched until the account is deleted. |
| `SeasonRuns.SummaryIsTheMove` | server/internal/service/league.go:274-277 | Whenever a summary appears, its player makes the move it tells of in the same step, and the points restart exactly on a change of tier. |
| `SeasonRuns.NoMoveWithoutSummary` | server/internal/service/league.go:274-277 | Nobody changes tier without a summary that appears in the same step. |
| `SeasonTransactions.TransactionIsTimely` | server/internal/store/sqlite/db.go:102-142 | A whole transaction (a single statement, a catch-up, or a catch-up with a start, a submit or a join) whose readings lie in one round is a fair run; so is a start across the end of a round in a tier that freezes absences. |
| `SeasonTransactions.HistorySettlesOnce` | server/internal/service/league.go:274-350 | After any history of such transactions, from the empty league: exactly one summary and one tier move for each member of a closed group, none for a member of an open one, and nobody has two memberships to settle. |
| `SeasonOrder.ClosesCommute` | server/internal/service/league.go:278-350 | Closing two groups in either order gives the same tables. |
| `SeasonOrder.ClaimsCommute` | server/internal/service/league.go:218-272 | The two claims that share frozen counts commute. |
| `SeasonOrder.ClaimAndCloseCommute` | server/internal/service/league.go:218-272 | A claim does not notice that groups of its claimed twin have been settled. |
| `SeasonOrder.StepsCommute` | server/internal/service/league.go:218-224 | Any two adjacent steps of the two closes can be exchanged. |
| `SeasonOrder.EitherTierFirst` | server/internal/service/league.go:218-224 | Closing the whole openings round and the whole capped round in either order, at any times after their end, gives the same tables. |
| `SeasonOrder.RunAnyTime` | server/internal/service/league.go:142-193 | The same closing steps lead to the same tables at any times after the end of the round. |
| `SeasonCap.ClaimFreezes` | server/internal/service/league.go:218-272 | Whichever of the two rounds is claimed first, and however much has been closed in between, both freeze the populations from before. |
| `SeasonCap.TopAfterClose` | server/internal/service/league.go:278-350 | Closing the lower group adds to the capped tier exactly those the frozen counts promote, closing the upper one takes away exactly those they relegate. |
| `SeasonCap.CapHoldsInTheTables` | server/internal/domain/league.go:393-424 | From a state in which neither round is claimed, through both closes with their steps mixed in any way and at any times: when each of the two tiers has one group with all its players, the capped tier ends within its cap, counted in the players of both tiers before, and uses it up exactly when the tier below can fill the openings. |
| `SeasonClock.AbsenceIsSafeIff` | server/internal/service/league.go:28-113 | Whatever its four clock readings, an absence leaves the close of every membership still to be settled its summary and its tier move exactly when none of them is in a tier that punishes absence or in the round the absence is booked for. |
| `SeasonClock.SparedIff` | server/internal/service/league.go:43-63 | If at most one round ends inside a transaction, and none between booking and settling the absence, the late absences that a fair run excludes are exactly those that cost somebody the result of a round they played. |
| `SeasonClock.StartIsSafeIff` | server/internal/service/play.go:56-74 | A start leaves its player with one membership to settle exactly when they had none before, which is when nothing was left to settle in an ended round, so always when the clock of its catch-up and the clock of its index lie in the same round; and then the league invariant holds. |
| `SeasonClock.AbsenceAfterStartIff` | server/internal/service/play.go:56-74 | After a start across the end of a round and an absence in the new round, the close of the new round writes its summary, and its tier move hits exactly when the tier is a floor or does not relegate for absence. |
| `SeasonClock.StartWillHit` | server/internal/service/play.go:56-74 | Without such an absence the close of the round started in always inserts the summary and moves the player. |
| `SeasonClock.OldVerdictDecides` | server/internal/service/play.go:56-74 | With a membership of the round before still open, the close of the new round hits exactly when the verdict of the old one left the player in their tier. |
| `SeasonExamples.LostMove` | server/internal/service/league.go:323-347 | The promise fails on a run from the empty league in the shipped table: registered, promoted to Platinum, caught up one second before a round ends, started after it; the next catch-up, a step of the same run, takes the player down, and the close writes a summary whose tier move misses, whatever the verdict. |
| `SeasonCatchUp.IdleIff` | server/internal/service/league.go:22-114 | A catch-up leaves the tables as they are exactly when no round of the tier is due and none was missed. |
| `SeasonCatchUp.SecondCatchUp` | server/internal/service/league.go:22-114 | A second catch-up at the same instant changes nothing exactly when the tier the first one left the player in has no ended round that is not closed; so it is idle whenever the first one left them in their tier. |
| `SeasonExamples.SecondCatchUpIsNotIdle` | server/internal/service/league_test.go:256-262 | It is not always a no-op: in a reachable league the first catch-up promotes a Gold player into Platinum, where the same week is still open, and any second one changes the tables. |
| `SeasonCatchUp.CaughtUpAfter` | server/internal/service/league.go:27-54 | Closing the due rounds of one tier leaves the player nothing to settle in an ended round, even when the close moves them to another tier. |
| `SeasonCatchUp.CatchUpIsARun` | server/internal/service/league.go:22-114 | A catch-up takes only steps of the system, whatever the clock shows at its four readings; with all of them in one round no step of it is late. |
| `SeasonCatchUp.EntryIsARun` | server/internal/service/play.go:56-74 | So does a start, a submit or a join as a whole, and it ends with a membership in the running round of a tier that has rounds; with all readings in one round no step of it is late. |
| `SeasonSettling.EvaluationJudges` | server/internal/service/league.go:294-306 | The evaluation of the ranked rows and bots, with the frozen count, is the judgement the closing step asks for, and leaves nobody without a verdict. |
| `SeasonSettling.AllPlaced` | server/internal/service/league.go:301-313 | After the loop everybody in the group has had their turn. |
| `SeasonStore.League.InsertSummary` | server/internal/store/sqlite/league.go:362-379 | On conflict do nothing, and say which it was. |
| `SeasonStore.League.SetTier` | server/internal/store/sqlite/players.go:94-106 | Guarded on the current tier; the points restart only on a change. |
| `SeasonStore.League.SettleMember` | server/internal/service/league.go:301-348 | One turn of the loop writes the verdict and, unless the member left, the summary and the tier, exactly as the specification of the close says for one more player. |
| `SeasonStore.League.GroupMembers` | server/internal/service/league.go:491-511 | Lists every row of the group once, and exactly the bots given. |
| `SeasonStore.League.CloseGroup` | server/internal/service/league.go:278-350 | The tables become those of the closing step, with the verdicts of the evaluation of the rows and of the bots given. |
| `SeasonStore.League.RoundEndingAt` | server/internal/store/sqlite/league.go:62-69 | Finds the last round of a tier that ends at one instant, if there is one. |
| `SeasonStore.League.FreezeCounts` | server/internal/service/league.go:225-272 | Computes the pair and the openings that a claim freezes: with d players below per place, a minimum and a maximum, what is left of the places after those who stay; no count at all for any other round. |
| `SeasonStore.League.ClaimRound` | server/internal/service/league.go:197-216 | The tables become those of the claiming step. |
| `SeasonStore.League.OpenGroups` | server/internal/store/sqlite/league.go:187-204 | Lists exactly the open groups of a round. |
| `SeasonStore.League.FinishRound` | server/internal/store/sqlite/league.go:81-86 | The tables become those of the finishing step, and the round is closed. |
| `SeasonStore.League.CloseRoundInTx` | server/internal/service/league.go:177-193 | Only steps of that close are taken, every group is judged together with its own bots, nobody joins or leaves, and the round ends closed. |
| `SeasonStore.League.DueRounds` | server/internal/store/sqlite/league.go:36-60 | Lists exactly the rounds of the tier that have ended and are not closed. |
| `SeasonStore.League.MissRounds` | server/internal/service/league.go:66-113 | The tables become those of the absence step, with one reading of the clock for the missed rounds, one for the round of the summary and one for the round to settle up to. |
| `SeasonStore.League.CatchUp` | server/internal/service/league.go:22-114 | Closes exactly the rounds of the tier due at the first of its four readings of the clock, each group judged together with its own bots, then books the rounds missed at the others; afterwards no round is missing. |
| `SeasonStore.League.IncGroupCount` | server/internal/store/sqlite/league.go:132-140 | Counts one up exactly when the group is open and has room. |
| `SeasonStore.League.FindOpenGroup` | server/internal/store/sqlite/league.go:112-122 | Returns the first open group with room in the order of the query, fullest first and then by the text of the id, or says that there is none. |
| `SeasonStore.League.FriendGroup` | server/internal/store/sqlite/league.go:142-177 | Returns the first listed group that holds a friend, in the same order, if there is one. |
| `SeasonStore.League.TakePlace` | server/internal/service/league.go:375-431 | The place is the wish if it has room, else a fullest group, else a new one with the next number. |
| `SeasonStore.OnePlacement` | server/internal/service/league.go:375-431 | Where a player is placed is determined by the tables and the wish. |
| `GroupIds.IdsApart` | server/internal/service/league.go:421-425 | The text of the ids puts the groups of a round in a strict order, whatever their numbers. |
| `GroupIds.IdsAreNumbers` | server/internal/service/league.go:421-425 | Up to the 999th group of a round it is the order of their numbers. |
| `GroupIds.ThousandComesFirst` | server/internal/service/league.go:421-425 | From the thousandth group on it is not: that id sorts before the one of group 999. |
| `SeasonStore.League.EnsureMembership` | server/internal/service/league.go:352-440 | Idempotent: an existing membership changes nothing; a new one asks for the picked group, else for the first group on the list that holds a friend, and takes its place accordingly. |
| `SeasonStore.League.EnterRound` | server/internal/service/play.go:56-74 | Catching up and joining at a later reading of the clock do what the lemmas on runs take them for, and a new seat is asked for in the first group on the list that holds a friend. |
| `SeasonStore.League.JoinGroup` | server/internal/service/runs.go:138-206 | A join request passes exactly when the tier has rounds and the picked group, if any, is on offer when the options are listed, or the player sits already; then the player ends in the round running at the earlier reading of the index, in the picked group if it still has room; refused, it leaves every row as it was, the catch-up included. |
| `SeasonStore.ListedIsRunning` | server/internal/service/runs.go:138-195 | Options listed after the end of the round to join are none: a pick that passes is of that round. |
| `SeasonStore.League.PromoteByScore` | server/internal/service/play.go:753-804 | The tables become those of the promotion step. |
| `SeasonStore.League.ApplyGame` | server/internal/service/play.go:606-612 | Takes the scoring step of the running round with these points and this tally and then, exactly when the points have reached the threshold, the promotion step, so that no promotion is left over. |
| `SeasonStore.League.Register` | server/internal/service/identity.go:90-131 | The tables become those of the registration step. |
| `SeasonStore.League.DeleteAccount` | server/internal/service/identity.go:198-208 | The tables become those of the deletion step. |
| `SubmissionRuns.StoredStats` | server/internal/store/sqlite/players.go:70-82 | Bumping the counters once keeps them equal to recomputation over the completed rows. |
| `SubmissionRuns.JoinKeepsTallies` | server/internal/service/play.go:509-516 | A player who joins a round has no counted game in it yet. |
| `SubmissionRuns.StoreKeepsTallies` | server/internal/service/play.go:661-674 | Storing a result, a replaced forfeit included, keeps every tally equal to recomputation. |
| `SubmissionRuns.StoreKeepsSessions` | server/internal/store/sqlite/sessions.go:49-53 | Storing a result keeps every session spent on the one result that names it. |
| `SubmissionRuns.MoveKeeps` | server/internal/service/play.go:263-305 | Every move of every interleaving, account deletion and registration under an old id included, keeps all of it, but for a commit over the forfeit of somebody else. |
| `SubmissionRuns.CommitKeepsIff` | server/internal/store/sqlite/results.go:48-66 | A commit keeps the tables in order exactly when the forfeit it writes over, if any, is the requester's own. |
| `SubmissionRuns.RemovalKeeps` | server/internal/service/identity.go:198-208 | Deleting an account with everything that hangs off it keeps the numbers of everybody else. |
| `SubmissionExample.OvertakenRequest` | server/internal/service/play.go:263-305 | The promise fails on a run from the empty server: a completed request that found its owner's forfeit outlives the account, another player stores a forfeit under that id, the first registers again, and the commit completes the other's row and counts it among the stats of the first. |
| `SubmissionRuns.NobodyWaitsOwnRows` | server/internal/service/identity.go:198-208 | If no replacing request outlives its owner's account, no commit of the run writes over the forfeit of somebody else. |
| `SubmissionRuns.NumbersAreRecomputation` | server/internal/store/sqlite/players.go:70-82 | In every state reached without such a commit, accounts coming and going, games, flawless and best score equal recomputation over the completed rows, every tally is the best-N sum and the count of the counted rows of its round, and no two results share a session. |
| `SubmissionRuns.NumbersWhenNobodyWaits` | server/internal/store/sqlite/players.go:70-82 | So in every state of every run, deletions and re-registrations included, in which no replacing request outlives its owner's account. |
| `SubmissionRuns.FinishedForGood` | server/internal/service/play.go:263-294 | Along any run at all, until its owner's account is deleted, a result only goes from absent to forfeit to completed; once completed, every later submission by its owner reads the stored response, and a transaction still under way answers with it or not at all. |
| `SubmissionRuns.AcceptedIsStored` | server/internal/service/play.go:613-620 | An accepted request is stored whole, under its owner: session, round, completed, counted, flawless, score and response; no other row changes, and its session, and no other, is spent on it. |
| `SubmissionRuns.AcceptedTallies` | server/internal/service/play.go:661-674 | An accepted counted game in a tier with rounds is one more game of its round: the new score is the best N of the counted scores before and this one, the old score plus what the game has above the N-th best; every other tally stays as it was. |
| `SubmissionRuns.AcceptedExactly` | server/internal/service/play.go:320-361 | A request is accepted exactly when its account exists, its session is its own and spent on nothing else, the game is let through, and its row is new or, for a replacement, still a forfeit. |
| `SubmissionRuns.TurnedAway` | server/internal/service/play.go:320-361 | A request that is not accepted writes no row and counts nothing, and where its course ended decides what is left of it: nothing after a rollback; the spent session after an early stop; the session and an empty seat after an impossible score, or when the forfeit was completed meanwhile, whose response is then the answer. |
| `SeasonResults.ActLinked` | server/internal/service/play.go:661-674 | Whatever happens to the league, the desk, or both in one transaction keeps the accounts and the memberships of the two the same, with the same round score and number of games. |
| `SeasonResults.ScoresAreRecomputation` | server/internal/service/play.go:661-674 | In every state of the whole server reached without a commit over somebody else's forfeit, round score and games of every member row are the best-N sum and the number of the counted results stored for that player and round. |
| `SeasonResults.CloseRanksResults` | server/internal/service/league.go:294-306 | So every person in a ranking that a close settles by stands there with the best-N sum of their stored results. |
| `SeasonResults.SummariesAreRecomputation` | server/internal/service/league.go:314-330 | And in every fair run the round score in the summary of a settled member is the best-N sum of the results stored for that round, then and whenever it is read later. |
| `SubmissionStore.TallyFromTop` | server/internal/service/play.go:661-674 | The tally computed from the top rows is the one over all rows. |
| `SubmissionStore.ResultStore.Insert` | server/internal/store/sqlite/results.go:37-46 | The primary key refuses a second row. |
| `SubmissionStore.ResultStore.ReplaceForfeit` | server/internal/store/sqlite/results.go:48-66 | Overwrites exactly a stored forfeit, every column but the owner. |
| `SubmissionStore.ResultStore.Consume` | server/internal/store/sqlite/sessions.go:46-53 | A session is spent once. |
| `SubmissionStore.ResultStore.AddGameStats` | server/internal/store/sqlite/players.go:70-82 | Bumps the counters and keeps the larger score. |
| `SubmissionStore.ResultStore.RoundScores` | server/internal/store/sqlite/results.go:73-93 | The best N counted scores of the round, best first. |
| `SubmissionStore.ResultStore.UseSession` | server/internal/service/play.go:320-361 | Spends the session on this result, or turns the request away exactly when it is missing, foreign or spent on another result. |
| `SubmissionStore.ResultStore.ApplyCompleted` | server/internal/service/play.go:625-674 | The stats are bumped and the tally becomes recomputation. |
| `SubmissionStore.ResultStore.SubmitInTx` | server/internal/service/play.go:307-621 | Ends in the specified tables and answer, or asks for a rollback exactly where the specification changes nothing; an accepted game is stored with all its fields. |
| `SubmissionStore.ResultStore.SubmitResult` | server/internal/store/sqlite/db.go:122-142 | With the rollback of a failed transaction and the commit of a failing one, tables and answer are the specified ones; an accepted game is stored with all its fields and, if it counts, added to the score and the number of games of its round. |
| `SubmissionStore.ResultStore.Register` | server/internal/service/identity.go:90-131 | Refuses exactly an id in use; a freed one starts afresh. |
| `SubmissionStore.ResultStore.DeleteAccount` | server/internal/service/identity.go:198-208 | Results, sessions, stats and memberships of the player go, and nothing else but the sessions other results named. |
| `Leaderboard.KeepsFirstBest` | server/internal/store/sqlite/bests.go:19-37 | The stored row is the first to arrive of the best runs. |
| `Leaderboard.ArrivalOrderOnlyBreaksTies` | server/internal/store/sqlite/bests.go:19-55 | In whatever order the same runs arrive, the rows kept tie in every column of the order. |
| `Leaderboard.OrdersAreWeak` | server/internal/store/sqlite/bests.go:19-55 | The conditions of the upserts are strict weak orders. |
| `Leaderboard.BoardOrders` | server/internal/store/sqlite/bests.go:12-17 | Of two rows of different players exactly one comes first, in either board order. |
| `Leaderboard.ChainsAreTheOrders` | server/internal/store/sqlite/bests.go:157-202 | The two hand-written OR-chains of the rank queries are the ORDER BY of their boards, column by column, flipped directions included. |
| `Leaderboard.UpsertsFollowTheOrders` | server/internal/store/sqlite/bests.go:19-55 | Between two runs of one player the upsert conditions are those same orders. |
| `Leaderboard.OneRowEach` | server/internal/store/sqlite/bests.go:22-37 | A player has at most one row per level. |
| `Leaderboard.BestTables.UpsertBest` | server/internal/store/sqlite/bests.go:19-37 | Overwrites exactly when the candidate sorts strictly first. |
| `Leaderboard.BestTables.UpsertFlawless` | server/internal/store/sqlite/bests.go:39-55 | The same for the fastest clean run. |
| `Leaderboard.BestTables.Rank` | server/internal/store/sqlite/bests.go:153-202 | The rank is 0 exactly without a row of mine, and else the position of that row on the board. |
| `Leaderboard.RankIsRowNumber` | server/internal/store/sqlite/bests.go:103-202 | In every scope the rank query gives my row number on the board of that scope, and 0 exactly when I have no row and am not on it. |
| `Leaderboard.RankOnTheBoard` | server/internal/store/sqlite/bests.go:103-202 | There always is such a board, and the rank, when it is not 0, is my row number on it. |
| `Leaderboard.BoardShows` | server/internal/store/sqlite/bests.go:81-101 | On a board stands exactly who has a row of the level and is me, a friend, or, outside the friends scope, not hidden; each with that row. |
| `Leaderboard.BoardReads` | server/internal/store/sqlite/bests.go:12-17 | From top to bottom the boards read by falling score, then rising mistakes and time, and by rising time. |
| `LevelCatalog.ImportAppends` | server/internal/levelset/levelset.go:134-191 | An accepted import only appends to the published list, numbers stay 1..count, and every entry of the file is published. |
| `LevelCatalog.ImportTwice` | server/internal/levelset/levelset.go:134-191 | Importing the same file again changes nothing. |
| `LevelCatalog.RefusedIffEdited` | server/internal/levelset/levelset.go:134-191 | An import is refused exactly when some entry of the file differs in content from a stored or an earlier level of that id. |
| `LevelCatalog.RefusedNamesFirst` | server/internal/levelset/levelset.go:134-191 | The refusal names the first such entry. |
| `LevelCatalog.RunAppends` | server/internal/levelset/levelset.go:193-207 | Over any sequence of accepted and refused imports the published list only grows at the end. |
| `LevelCatalog.EqualCountsEqualTables` | server/internal/service/service.go:86-98 | Two states of one history with equal published counts are equal. |
| `LevelCatalog.LevelTable.MaxPosition` | server/internal/store/sqlite/levels.go:76-80 | The largest position is the number of published levels. |
| `LevelCatalog.LevelTable.Import` | server/internal/levelset/levelset.go:134-191 | The table, the refusal and the report are those of the specified import: new rows are reported as added, new places of stored rows as published, the rest as kept. |
| `LevelCatalog.LevelTable.Store` | server/internal/levelset/levelset.go:146-183 | One entry is inserted, published, kept or refused as specified. |
| `LevelCatalog.LevelTable.Sync` | server/internal/levelset/levelset.go:193-207 | A failed import leaves the table as it was. |
| `LevelCatalog.LevelService.ReloadLevels` | server/internal/service/service.go:101-120 | The index becomes the whole table. |
| `LevelCatalog.LevelService.RefreshLevels` | server/internal/service/service.go:86-98 | Comparing one count is enough to know whether the index agrees with the database on every level. |
| `LevelCatalog.LevelService.LevelFor` | server/internal/service/service.go:67-84 | Finds exactly the stored levels, whatever was imported elsewhere since the index was built. |
| `LevelCatalog.LevelService.ImportElsewhere` | server/internal/levelset/levelset.go:193-207 | An import by another process, accepted or refused, leaves the index a part of the table, which is all the lookups rely on. |

## Left out

- Floating point: `math.Pow` scoring, difficulty, the costs of the solver's steps and the score that adds them up, and float weights of the generator; a score is a nonnegative number, at most twice its base where the ceiling needs it.
- Texts: the explanation of a solver step, rendering, command lines, JSON reading and writing.
- Quarantine decisions: whether a player is excluded is an arbitrary flag of a join; anomaly scores, flags, rate limits and the perfect streak are not modelled.
- HTTP, tokens, HMAC, hashing, UUIDs, nicknames, friend codes: foreign libraries or easy.
- The "sum" round mode in the stored tallies: the server's query always limits to N, so those results are for the shipped best-N mode.
- Order of the due rounds and of the open groups of a round: closing in any order gives the same tables (`SeasonOrder.ClosesCommute`), so the model lists them in any order.
- Platinum and Diamond closing in different orders: Platinum promotions change the Diamond population, so only the two tiers that share frozen counts commute.
- Members of other round lengths: all tiers with rounds share one calendar, as shipped; a table that mixes round lengths is not covered.
- Group sizes seen by a placement view, cached openings, friend lists, summaries seen and acknowledged: read-only views and easy writes.
- Quotas by star rating and the loop over seeds of the level generator: they only choose among boards that `Generator.Attempt` accepts.
- Bots.BotProgress: the seed of a group and the names of its bots are parameters or left out, because they come from a hash.
- SeasonCap.CapHoldsInTheTables: assumes one group per tier that holds all its players, because players who did not play in the week are in no group.
- SeasonRuns.RunKeeps: leaves out the late starts and absences that `SeasonClock.StartIsSafeIff` and `SeasonClock.AbsenceIsSafeIff` show to break the promise, and those late absences during whose transaction a second round ends or the round booked ends before the settling.
- SubmissionRuns.NumbersAreRecomputation: leaves out commits over the forfeit of somebody else, which `SubmissionRuns.CommitKeepsIff` shows to break it.
