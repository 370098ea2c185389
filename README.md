# Tic-tac-toe game engine, modelled in Dafny

This project models the `GameEngine` of a two-player tic-tac-toe server
(`game-engine.js`). A `GameEngine` owns one game: a 3x3 board whose cells
hold 0 (empty) or the id of the player who took them, and a lifecycle
state (`New`, `WaitingForPlayerTwo`, `PlayerOneMove`, `PlayerTwoMove`,
`PlayerOneWins`, `PlayerTwoWins`, `Stalemate`). Players join with
`addPlayer` and play with `executeMove`. A move is checked in a fixed order:
the game is in play, the player id is legal, the cell id is legal, it is this
player's turn, and the cell is free. The first check that fails decides the
error. A move that passes all five writes the player's id on the cell and
hands the turn over. The engine then searches the lines for a winner: rows,
then columns, then the back and forward diagonals. Without a winner, a full
board is a stalemate.

The project has three modules:

- `Rules` (`rules.dfy`) holds the rules as pure functions over a flat,
  row-major board of nine cells (cell id `3 * row + column`):
  - `GameState` holds the seven lifecycle states, one per state constant
    of the source (game-engine.js:12-18).
  - `Validate` and `Move` define the checks and the move itself.
  - `LineWinner`, `Verdicts` and `FirstWinner` give the verdict per line and
    the short-circuit search over them; `Winner` runs that search on a
    board, and `Conclude` decides the state after a move from its result.
  - `Consistent` is the invariant that relates the state to the board.
  - The lemmas prove what these functions promise.
- `Engine` (`engine.dfy`) holds the class `GameEngine`:
  - `board` is an `array2<int>` that the methods update in place, and `state`
    is a mutable field.
  - The loops of the source appear as `for` loops with invariants.
  - The constructor establishes `Valid()`, which is `Rules.Consistent` on
    the board's cells, and `AddPlayer` and `ExecuteMove` keep it. The
    internal helpers (`CheckForWin`, `SetStateOnWin`, `CheckForStalemate`
    and the line checks) run in the middle of a move, after the write and
    before the invariant holds again, so they assume only the 3x3 shape and
    a board of empty and player cells.
  - `ExecuteMove` is proved against `Rules.Move`.
- `Scenarios` (`scenarios.dfy`) plays sequences of moves:
  - every game reached from the start is consistent;
  - a finished game has exactly one outcome;
  - a few example games, played from the start, end the way the rules say.

## Model

| member | source | states |
|---|---|---|
| Rules.CheckValuesForWin | game-engine.js:275-285 | a non-zero verdict means all three values equal it; three equal non-empty values are reported as their common value |
| Rules.LineWinner | game-engine.js:210-285 | a line's verdict is non-zero exactly when the occupant of its first cell holds all three of its cells, and it is then that occupant |
| Rules.LifecyclePhases | game-engine.js:12-18 | the seven states of `Rules.GameState`, one per state constant of the source, fall into exactly one phase each: before both players have joined (New, WaitingForPlayerTwo), in play (a player's move), or over (a win or a stalemate) |
| Rules.FirstWinnerIsFirstNonZero | game-engine.js:122-156 | `Rules.FirstWinner`, the short-circuit search over the line verdicts, returns the first non-zero verdict in checking order (all earlier verdicts are 0), or 0 when there is none |
| Rules.WinnerHoldsFirstLine | game-engine.js:122-156 | `Rules.Winner`, the search over the eight lines of a board, reports a player holding a full line, and no earlier line in the order rows, columns, diagonals has a verdict; 0 is reported exactly when neither player holds a line |
| Rules.ConcludeDecides | game-engine.js:116-164 | `Rules.Conclude`, the state decision after a move: when either player holds a line the reported winner is a player with a line and the state is that player's win; a full board without a line is a stalemate; otherwise the provisional state of the move stands |
| Rules.OwnerIsVerdict | game-engine.js:275-285 | a line that a player holds has that player as its verdict |
| Rules.Validate | game-engine.js:71-95 | the move passes exactly when the game is in play, the player is the one to move, the cell is on the board and empty; each error arises exactly when every earlier check passes and its own fails |
| Rules.Move | game-engine.js:71-111 | a move fails exactly when validation fails, with the same error; a successful move leaves a board of empty and player cells |
| Rules.MoveChangesOnlyItsCell | game-engine.js:89-99 | a successful move was on an empty cell, writes the mover's id there and changes no other cell |
| Rules.MoveOutcome | game-engine.js:101-164 | after a successful move the game is the opponent's turn with no line and a non-full board, or the mover has won with the first full line, or it is a stalemate with a full board and no line |
| Rules.NewLineBelongsToMover | game-engine.js:99 | writing one player's id on a cell cannot give the other player a line |
| Rules.CountAfterPlace | game-engine.js:99 | writing a player's id on a cell adds one to that player's count, removes one from the old value's count and keeps every other count |
| Rules.CountsAddUp | game-engine.js:183-199 | a general counting fact behind the turn parity of the invariant, used to show that the full board of a stalemate holds one more of player one's cells than of player two's: on a board of empty and player cells, the counts of 0, 1 and 2 add up to the board size |
| Rules.FullHasNoEmptyCell | game-engine.js:178-202 | a full board has no empty cell |
| Rules.AbsentCountsZero | game-engine.js:25-27 | a general counting fact, used for the all-zero initial board in the turn parity of the invariant: a value that occurs on no cell counts zero |
| Rules.EmptyBoardConsistent | game-engine.js:23-29 | the empty board is consistent with New, WaitingForPlayerTwo and PlayerOneMove |
| Rules.MoveKeepsTurnParity | game-engine.js:99-105 | after a successful move player one holds one cell more than player two if player one moved, and as many if player two moved |
| Rules.MovePreservesConsistency | game-engine.js:71-164 | every successful move takes a consistent game to a consistent game (turn parity, lines, fullness) |
| Rules.TerminalStatesRejectMoves | game-engine.js:72-74 | in a terminal state every move fails with IllegalStateToExecuteMove |
| Rules.OverIffNoMoveSucceeds | game-engine.js:297-299 | once both players have joined, a consistent game is in a terminal state exactly when no move can succeed |
| Engine.GameEngine.constructor | game-engine.js:23-29 | a new engine has the given id, an empty 3x3 board, state New and a valid invariant |
| Engine.GameEngine.AddPlayer | game-engine.js:39-55 | New gives player 1 and WaitingForPlayerTwo; WaitingForPlayerTwo gives player 2 and PlayerOneMove; any other state fails with IllegalStateToAddPlayer and changes nothing; the board is untouched |
| Engine.GameEngine.ExecuteMove | game-engine.js:71-111 | the outcome is the rules' validation of the old state and board; a failed move changes nothing; a successful one ends in the state and board Rules.Move gives, writes the player's id on the formerly empty cell (row cellId / 3, column cellId % 3) and changes no other cell; the invariant is kept |
| Engine.GameEngine.CheckForWin | game-engine.js:116-164 | the new state is the first full line's winner, else Stalemate if the board is full, else the provisional state of the move |
| Engine.GameEngine.SetStateOnWin | game-engine.js:166-176 | the state becomes the win state of the given player |
| Engine.GameEngine.CheckForStalemate | game-engine.js:178-202 | the result is true exactly when no cell is empty; the state becomes Stalemate then and is unchanged otherwise |
| Engine.GameEngine.CheckRowForWin | game-engine.js:210-216 | the result is the verdict on that row of the board |
| Engine.GameEngine.CheckColumnForWin | game-engine.js:224-234 | the values collected top to bottom are that column's cells, and the result is its verdict |
| Engine.GameEngine.CheckDiagonalsForWin | game-engine.js:242-266 | the result is the back diagonal's verdict if non-zero, else the forward diagonal's: the tail of the search from line 6 |
| Engine.GameEngine.State | game-engine.js:290-292 | the result is the current state, and it is consistent with the board |
| Engine.GameEngine.IsOver | game-engine.js:297-299 | the result is the terminal-state test (a win for either player, or a stalemate); equivalently, both players have joined and no move can succeed any more; when true, every move fails with IllegalStateToExecuteMove |
| Scenarios.PlayPreservesConsistency | game-engine.js:71-164 | any sequence of successful moves from a consistent game ends in a consistent game |
| Scenarios.FinishedGameHasOneOutcome | game-engine.js:116-202 | a game played from the start that is over is a win for player one (who holds a line the other lacks), a win for player two, or a full board without a line |
| Scenarios.OpeningMove | game-engine.js:99-164 | the first move of player one, on any cell, makes no line and fills no board, so it hands the turn to player two |
| Scenarios.RowWin | game-engine.js:122-134 | the game 1 at 0, 2 at 3, 1 at 1, 2 at 4, 1 at 2, played from the start, ends with player one winning on the top row |
| Scenarios.ColumnWin | game-engine.js:137-149 | the game 1 at 0, 2 at 1, 1 at 3, 2 at 4, 1 at 6, played from the start, ends with player one winning on the left column |
| Scenarios.DiagonalWin | game-engine.js:242-255 | the game 1 at 0, 2 at 1, 1 at 4, 2 at 2, 1 at 8, played from the start, ends with player one winning on the back diagonal |
| Scenarios.FullBoardStalemate | game-engine.js:154-202 | the nine-move game 1 at 0, 2 at 2, 1 at 1, 2 at 3, 1 at 5, 2 at 4, 1 at 6, 2 at 7, 1 at 8, played from the start, fills the board without a line and ends in Stalemate |
| Scenarios.OutOfTurn | game-engine.js:84-87 | player two cannot open the game |
| Scenarios.ReplayedCell | game-engine.js:93-95 | a taken cell cannot be played again |

## Left out

- Logging: every `console.log` call is left out, because it has no effect on
  the state.
- The module wrapper and its `exports` object are left out; the class is
  declared directly.
- The game id is used only in log messages. It is kept as an immutable field
  and nothing else depends on it.
- JavaScript loose equality and `typeof ... == 'undefined'` checks: player
  and cell ids are modelled as integers. A missing argument, a string such
  as `"1"`, or a fractional cell id is outside the model. For a fractional
  cell id such as 1.5 the source computes a fractional column (`1.5 % 3` is
  1.5), reads `undefined` from the board row, and so fails with
  `CellAlreadyPlayed` without writing anything.
- The doc comment of `executeMove` promises the winner's id as the return
  value, but the code returns nothing. The model follows the code:
  `ExecuteMove` returns only success or the error.
- The `IllegalStateError` branches are left out because they are
  unreachable. The player id is already validated, so `ExecuteMove` carries
  `assert false` in that branch. `SetStateOnWin` requires a player id, since
  only line verdicts, which are player ids, reach it. The `Error` datatype
  has no variant for this error.
- Exceptions are modelled as returned error values (`Result`, `Outcome`).
  Only the error itself is modelled; any message text is not.
- The unused `startingCellId` parameter of `_checkDiagonalsForWin` is left
  out.
- Concurrency and sharing one engine between callers are left out. Each
  method is modelled as a single atomic step.
