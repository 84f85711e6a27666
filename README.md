# Super Bowl squares: board rules in Dafny

This project models the game rules of a "Super Bowl squares" web app. A host
creates a board, sets a display name and a per-contestant limit, contestants
claim squares of a 10x10 grid under their name, an assignment step draws a
team and a shuffled digit list for each axis and locks the board, and a
scheduled job turns quarter scores into winning squares.

Each HTTP handler becomes a pure function
`(request, fetched board) -> Ok(new board) | Err(reason)`. The fetched board is
an input: `None` stands for a board id that the store does not know. The
winner job is modelled as loops (methods) proved against specification
functions.

Modules, one per source file:

- `BoardModel` (`board.dfy`) holds the `Board` record, the truthiness of request
  fields, ownership counts, digit permutations, and the invariant `Valid` that
  every handler keeps.
- `Create` (`create.dfy`) builds the initial board.
- `SetupBoard` (`setup.dfy`) is the setup handler, as written and corrected.
- `Square` (`square.dfy`) claims a square.
- `AssignTeams` (`assign_teams.dfy`) assigns teams and numbers.
- `UpdateWinners` (`update_winners.dfy`) covers `findWinningSquare`, the
  parsed score list, the per-board merge and the job's write plan.
- `Lifecycle` (`lifecycle.dfy`) holds scenarios that span several handlers.
- `Wrappers` (`wrappers.dfy`) defines `Option` and `Result`.

Modelling choices:

- A request body field is an `Option`; `None` is a missing key. JavaScript
  truthiness is `Some` with a non-empty string or a non-zero number.
- `board.squares[position]` is truthy when the key is stored with a non-empty
  owner (`Square.Taken`).
- The random inputs are parameters with a permutation precondition: the output
  of `shuffleArray` for the team pair and for the two digit lists. The board id
  from `generateBoardId` is a plain parameter.
- `Board` keeps the record's snake_case keys. It also has two optional fields,
  `displayName` and `maxSquaresPerContestant`. Those are the extra camelCase keys
  that the setup handler writes (see Findings).
- Positions are opaque strings, as in the code. The client draws a 10x10 grid
  (`src/components/SquareBoard.tsx:240-248`), but the claim handler never checks
  that a position is a cell, so a board can hold more than 100 keys. The model
  follows the handler (`Lifecycle.GridOverflowBlocksAssignment`).
- No server code releases a square: the claim handler ignores the client's
  `remove` flag. The 1..100 limit is checked only in the setup form. The model
  follows the server code.

## Model

| member | source | states |
|---|---|---|
| BoardModel.DigitPermutation | src/pages/api/board/assign-teams.ts:33-34 | a reordering of `[0..9]` has length 10, only digits, every digit, no repeats |
| BoardModel.DigitPermutationDistinct | src/pages/api/board/assign-teams.ts:33-34 | two different indices of a reordered digit list hold different digits |
| BoardModel.TeamPermutation | src/pages/api/board/assign-teams.ts:31-32 | a reordering of `[Chiefs, Eagles]` has two distinct labels that together are {Chiefs, Eagles} |
| BoardModel.Present | src/pages/api/board/setup.ts:8 | a string field passes the `!x` guard exactly when it is given and non-empty (also the guards at square.ts:8 and assign-teams.ts:9) |
| BoardModel.PresentNumber | src/pages/api/board/setup.ts:8 | a number field passes the `!x` guard exactly when it is given and non-zero |
| BoardModel.CountOwned | src/pages/api/board/square.ts:23-24 | the size of `Owned(squares, name)`, the `length` of the entries the `filter` keeps; 0 exactly when no stored square belongs to `name` |
| Create.NewBoard | src/pages/api/board/create.ts:8-15 | the new board has the generated id, state `setup`, empty name, limit 0, no squares (every count 0), no teams, no winners, and is valid |
| SetupBoard.Setup | src/pages/api/board/setup.ts:6-22 | missing or falsy fields give MissingFields; an unknown id gives NotFound; otherwise the state becomes `choosing` from any state, id, squares, teams, winners, `display_name` and `max_squares_per_contestant` stay as they were, and the new values land in the camelCase keys |
| SetupBoard.SetupCorrected | src/pages/api/board/setup.ts:17-22 | the same checks, with the new name and limit written to `display_name` and `max_squares_per_contestant` |
| SetupBoard.SetupPreservesValid | src/pages/api/board/setup.ts:17-22 | setup as written keeps every board invariant |
| SetupBoard.SetupFromAnyState | src/pages/api/board/setup.ts:17-21 | with all fields truthy, setup succeeds from every state, `locked` included, and yields `choosing` |
| SetupBoard.SetupAcceptsAnyNonZeroLimit | src/pages/api/board/setup.ts:8 | any non-zero limit is accepted, including negative values and values above 100 |
| SetupBoard.SetupRejectsFalsyFields | src/pages/api/board/setup.ts:8-10 | an empty id, an empty display name or a zero limit is rejected as MissingFields |
| SetupBoard.SetupCorrectedValid | src/pages/api/board/setup.ts:17-22 | the corrected setup, with a limit in 1..100, applied to a board with no squares yields a valid board |
| Square.Claim | src/pages/api/board/square.ts:6-41 | the checks run in order: fields, not found, state `choosing`, quota (count >= limit gives LimitReached), occupancy (AlreadyTaken). A claim succeeds exactly when all pass, and then `squares` gains `position := name` and nothing else on the board changes |
| Square.Taken | src/pages/api/board/square.ts:31 | `board.squares[position]` is truthy: the key is stored with a non-empty owner |
| Square.EmptyOwnerClaimedOver | src/pages/api/board/square.ts:31-41 | a key stored with an empty owner reads as free: the claim succeeds, replaces the owner and keeps the key count |
| Square.LimitCheckedFirst | src/pages/api/board/square.ts:23-33 | a claimant at the limit gets the limit error, even on a taken square |
| Square.ClaimOwnSquareRejected | src/pages/api/board/square.ts:23-33 | claiming a square one already owns is rejected: AlreadyTaken, or LimitReached when the claimant's quota is full |
| Square.RemoveFlagIgnored | src/pages/api/board/square.ts:6 | the `remove` flag does not change the outcome |
| Square.CountAfterAdd | src/pages/api/board/square.ts:23-41 | adding a fresh key owned by `name` raises that name's count by one and leaves other names' counts unchanged |
| Square.ClaimPreservesValid | src/pages/api/board/square.ts:23-41 | a successful claim loses no key, adds exactly one key, adds one to the claimant's count, leaves other counts unchanged, and keeps the board valid, in particular within the limit |
| AssignTeams.Assign | src/pages/api/board/assign-teams.ts:7-49 | a missing id gives MissingFields, then NotFound; not `choosing` gives WrongState; a key count other than exactly 100 gives IncompleteBoard; otherwise the board is locked, axis 1 gets the first drawn team and `numbers`, axis 2 the second drawn team and `numbers2` (two different labels, together Chiefs and Eagles), and nothing else changes |
| AssignTeams.AssignPreservesValid | src/pages/api/board/assign-teams.ts:36-49 | a successful assignment keeps every board invariant and the squares |
| AssignTeams.AssignedAxesCoverDigits | src/pages/api/board/assign-teams.ts:33-46 | after assignment each axis has 10 entries and contains every digit |
| UpdateWinners.FindIndex | src/scripts/update-winners.ts:55-56 | `findIndex`: -1 exactly when the value is absent, otherwise the first index holding it |
| UpdateWinners.FindWinningSquare | src/scripts/update-winners.ts:41-61 | no teams gives null. The axis-1 team's score is `scores[0]` when axis 1 is Chiefs and `scores[1]` otherwise. Null exactly when a raw score is absent from its axis. Otherwise `[row, col]` are the first indices of the axis-2 and axis-1 scores |
| UpdateWinners.DigitScoresResolve | src/scripts/update-winners.ts:55-60 | on validly assigned teams, two scores in 0..9 always resolve to a cell of the grid |
| UpdateWinners.ResolvedInGrid | src/scripts/update-winners.ts:55-60 | on validly assigned teams, every resolved cell lies in 0..9 x 0..9 |
| UpdateWinners.RawScoreOutsideDigitsUnresolved | src/scripts/update-winners.ts:55-58 | a raw score outside 0..9 (such as 17) yields null, because there is no last-digit reduction |
| UpdateWinners.FindIndexOfDigitAt | src/scripts/update-winners.ts:55-56 | in a digit permutation, the first index of the digit at index i is i |
| UpdateWinners.WinningSquareAt | src/scripts/update-winners.ts:48-60 | when axis 1's team scores the digit at index `col` of axis 1 and axis 2's team scores the digit at index `row` of axis 2, the result is `[row, col]`, whichever team holds axis 1 |
| UpdateWinners.AllQuarters | src/scripts/update-winners.ts:23 | the quarters are read in the order q1, q2, q3, q4 |
| UpdateWinners.WinnersFromEnv | src/scripts/update-winners.ts:21-39 | the loop over q1..q4 returns `ParsedWinners`: one entry per quarter whose variable is non-empty and parses, in quarter order |
| UpdateWinners.ParsedWinnersSpec | src/scripts/update-winners.ts:23-36 | the parsed list has strictly ascending quarters (each at most once, in order q1..q4). Its entries are exactly the quarters whose variable is set, non-empty and parses, with their parsed scores |
| UpdateWinners.ParsedWinnersOrder | src/scripts/update-winners.ts:23-36 | the entries of the first k quarters ascend and all come before quarter k |
| UpdateWinners.ParsedWinnersCover | src/scripts/update-winners.ts:25-34 | each of the first k quarters whose variable is set and parses has an entry |
| UpdateWinners.MergeWinners | src/scripts/update-winners.ts:88-96 | the inner loop computes `MergedWinners`: start from the copy of the stored winners, then overwrite each quarter whose score pair resolves |
| UpdateWinners.InitialWinners | src/scripts/update-winners.ts:88 | the copy `{ ...board.winners }`: the stored winners, or the empty map when none are stored |
| UpdateWinners.MergedWinnersKeys | src/scripts/update-winners.ts:88-96 | the merge never removes a stored quarter |
| UpdateWinners.MergedWinnersResolved | src/scripts/update-winners.ts:91-95 | with each quarter listed at most once, a quarter whose entry resolves holds the resolved cell |
| UpdateWinners.MergedWinnersUnresolved | src/scripts/update-winners.ts:88-96 | a quarter none of whose entries resolves keeps its stored entry, or stays absent |
| UpdateWinners.MergedWinnersAt | src/scripts/update-winners.ts:88-96 | a quarter whose entry resolves holds the resolved cell; a quarter with no resolving entry keeps its old entry or stays absent; no quarter is removed |
| UpdateWinners.MergedWinnersFrom | src/scripts/update-winners.ts:88-96 | every merged cell was stored before or was resolved from some entry |
| UpdateWinners.WithWinners | src/scripts/update-winners.ts:100-103 | the write replaces the winners and nothing else on the board |
| UpdateWinners.NeedsWrite | src/scripts/update-winners.ts:99 | the `JSON.stringify` inequality: the stored winners are absent, or differ from the merged map |
| UpdateWinners.AbsentWinnersWritten | src/scripts/update-winners.ts:88-99 | a board stored without winners is written, with the empty map, even when no entry resolves |
| UpdateWinners.StoredWinnersWrittenIffChanged | src/scripts/update-winners.ts:88-99 | a board with stored winners is written exactly when some merged quarter was added or holds a different cell |
| UpdateWinners.MergePreservesValid | src/scripts/update-winners.ts:88-103 | writing the merged winners keeps the board valid, and every recorded cell lies in the grid |
| UpdateWinners.MergeIdempotent | src/scripts/update-winners.ts:88-99 | merging again into a board that already holds its merged winners changes nothing, so that board is not written again |
| UpdateWinners.UpdateBoardWinners | src/scripts/update-winners.ts:63-111 | the job's loop issues exactly the writes of `PlannedWrites`: none when no entry was parsed, else one per locked board whose merged winners differ from the stored ones |
| UpdateWinners.PlannedWritesSpec | src/scripts/update-winners.ts:67-103 | every planned write belongs to a locked board and carries its merged winners, which differ from the stored ones. Every such board is written. An empty entry list plans no write |
| UpdateWinners.JobIdempotent | src/scripts/update-winners.ts:87-103 | after the job, no board needs another write for the same entries, and valid boards stay valid |
| UpdateWinners.AfterRun | src/scripts/update-winners.ts:87-111 | the table after a run holds each board as the job leaves it, in the order read |
| UpdateWinners.AfterJobMatchesPlan | src/scripts/update-winners.ts:87-103 | each board of the table after the run is unchanged, or its write is planned and it holds the written winners |
| UpdateWinners.SecondRunWritesNothing | src/scripts/update-winners.ts:87-111 | a second run with the same entries over the table that the first run produced plans no write |
| Lifecycle.SetupAsWrittenBlocksClaims | src/pages/api/board/setup.ts:17-22 | as written, setting up a new board leaves the limit at 0, so every claim on it fails with LimitReached(0) |
| Lifecycle.SetupAsWrittenExample | src/pages/api/board/setup.ts:19-20 | a concrete request with limit 10: the 10 lands in `maxSquaresPerContestant`, and Ann's first claim is refused |
| Lifecycle.SetupCorrectedAllowsClaims | src/pages/api/board/square.ts:23-41 | after the corrected setup with a limit in 1..100, any first claim on a new board succeeds |
| Lifecycle.AnnReachesLimit | src/pages/api/board/square.ts:23-29 | after the corrected setup with limit 2, Ann's claims of "0,0" and "1,1" succeed and her claim of "2,2" fails with LimitReached(2) |
| Lifecycle.LastClaimEnablesAssignment | src/pages/api/board/assign-teams.ts:24-38 | with 99 keys assignment fails with IncompleteBoard; after the 100th claim it locks the board, which stays valid |
| Lifecycle.GridOverflowBlocksAssignment | src/pages/api/board/square.ts:31-41 | a full board accepts a 101st key, and from then on assignment always fails with IncompleteBoard |

## Left out

- Storage calls (`getBoard`, `createBoard`, `updateBoard`, and the job's select and update) are external I/O. Handlers take the fetched board as input, and the job returns its list of writes.
- A failed write in the job is only logged, so the model counts every planned write as issued.
- HTTP routing, JSON bodies and status codes are left out. So is the `try`/`catch` mapping to status 500 (including a store write that fails). An error enum stands in for them.
- The job's environment parsing (`split(',').map(Number)` and `isNaN`) relies on JavaScript number coercion. It is the `parse` parameter of `WinnersFromEnv`; `dotenv` and `process.exit` are left out.
- `shuffleArray` and `generateBoardId` are random and are not part of this model. Their results are inputs; the shuffles carry a permutation precondition.
- Scores and limits are unbounded integers. JavaScript numbers (floating point, NaN) are not modelled.
- Position keys that collide with `Object.prototype` members (such as `constructor`) read as taken in JavaScript. The model treats only stored keys as taken.
- The React components are UI state and client-side checks. The range check in the setup form, the upper-casing of ids in the find form and the optimistic square update are not server rules.
- No release operation is modelled, because no server code performs one.
- Concurrent claims against one board (the lost-update race) are left out. The model handles one request at a time.
- UpdateWinners.NeedsWrite: the `JSON.stringify` comparison is modelled as map equality, plus "always write when the stored winners are absent" (the spread copy is `{}`). The copy keeps the stored key order and overwrites in place, so the two agree on the maps the job produces.
- UpdateWinners.UpdateBoardWinners: the select's `state = 'locked'` filter is applied by the model to the table it is given.

## Findings

| source | as written | input that shows it | evidently intended | confidence | as-written member | corrected member |
|---|---|---|---|---|---|---|
| src/pages/api/board/setup.ts:19-20 | setup writes the new values under `displayName` and `maxSquaresPerContestant`; `max_squares_per_contestant`, which the claim check reads, stays 0 on a new board | a new board, setup with `{id, displayName: "Party", maxSquares: 10}`, then any claim: the claim is refused with "Maximum squares (0) reached" | write `display_name` and `max_squares_per_contestant` | high (not executed; the store may also refuse the unknown columns) | Lifecycle.SetupAsWrittenExample | SetupBoard.SetupCorrected |
