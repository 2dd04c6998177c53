# Tic-tac-toe engine in Dafny

A model of the game engine of a browser tic-tac-toe game, played on square boards of
side 3, 4 or 5 between a human and a heuristic computer player. The model covers five
pieces:

- **Cells** (`cell.dfy`, module `Cell`) are objects holding a status: empty, X or O. A
  mark is written only into an empty cell.
- **The board** (`board.dfy`, module `Board`) is an n-by-n grid of cell objects. It
  derives n rows, n columns and two diagonals from the grid. These views hold the very
  same cell objects, so a write through one view shows in all of them.
- **The round status** (`round_status.dfy`, module `RoundStatus`) holds the two
  complementary marks, the running flag and the win/draw counters.
- **Win and draw detection** (`match_controller.dfy`, module `MatchController`) covers
  the line checks, the order in which `checkGameStatus` looks at them, and the random
  choice of marks at the start of a round.
- **The AI's one-ply heuristic** (`move_advisor.dfy`, module `MoveAdvisor`):
  - every line is split into the player's cells, the AI's cells and the rest;
  - a line held by one side only gets a "moves to win" count;
  - the smallest count of each side is selected over all lines;
  - a target cell is then picked, and `move` writes the AI's mark into it.

`wrappers.dfy` holds the `Option` type.

Loops of the source are methods with loop invariants, each proved against a function
that specifies it:

| loop | method | specified by |
|---|---|---|
| `checkWinner` | `CheckWinner` | `FirstWinner` |
| `handleGroup` | `HandleGroup` | `AnalyzeGroup` |
| `selectTheSeq` | `SelectTheSeq` | `BestMoveOf` |
| the key-deletion loop of `move` | `DeleteEmptyGroups` | `NonEmptyGroups` |
| `generateCells` | `GenerateCells` | — |
| `handleBoardState` | `HandleBoardState` | `Transpose` and `Diagonals` |

Code built from `filter`, `map`, `every` and `some` is written as functions. What those
functions mean is proved in lemmas:

| source function | function | proved in |
|---|---|---|
| `handleSequince` (`src/classes/GameAI.ts:20-38`) | `MoveAdvisor.HandleSequence` | `HandleSequencePartitions`, `HandleSequenceLists`, `AnalysisMeaning` |
| `hasCollectionsNotEmptySequences` (`src/classes/Game.ts:96-100`) | `MatchController.HasCollectionsNotEmptySequences` | `WinnerImpliesFullLine`, `CheckHorizontal` |
| `checkState` (`src/classes/GameAI.ts:67-70`) | `MoveAdvisor.CheckState` | `CheckStateKeepsAll` |

The quirks of the code are modelled as written and proved as properties:

- **Columns are never checked.** `checkGameStatus` hands `checkVertical` the board's
  columns, and `checkVertical` transposes them back into the rows
  (`ColumnsOfColumns`, `ColumnWinIsMissed`).
- **The diagonal check compares two 2-cell lines.** `checkDiagonal` is handed the two
  diagonals and takes the "diagonals" of that 2-line group (`DiagonalsOfDiagonals`,
  `GameStatusOfMeaning`). On a 3-by-3 board, X in (0,0) and (1,1) and nothing else is
  already reported as a diagonal win for X.
- **A lone threat is ignored.** In `selectTheCell`, as soon as one side has no counted
  line (the sentinel -1), the first empty cell is taken, even when the other side has a
  line (`SelectTheCell`).
- **`getRandomEmptyCell` is not random.** It returns the first empty cell in board order
  (`GetRandomEmptyCell`).

Two more facts about the code follow from the above. A full column never wins a round.
No result is ever recorded in the counters, because `checkGameStatus` calls status
methods that do not exist (see "Left out").

Randomness is a parameter:

- `Math.random()` becomes `random: real` with `0 <= random < 1`.
- `randomInteger(lo, hi)` becomes a function parameter `randomInteger: (int, int) -> int`.
  Properties that need it to keep to its range say so through `RandomIntegerInRange`.
- Indexing an array out of range gives `undefined`; the model gives `None` (`Pick`).

Three modelling choices:

- `getRandomEmptyCell` reads `gameBoard.cells` as the flat list that
  `src/interfaces/IGameBoard.ts:15` declares. The model hands it the row-major
  flattening of the grid. The class itself stores rows of cells
  (`src/classes/GameBoard.ts:13`).
- The `moveGroup` object of `selectTheState` is a sequence of (key, entries) pairs, in
  the order its keys are inserted. A `delete` removes the pair.
- `let … of` loops with `continue` become `if`/`else`.

## Model

| member | source | states |
|---|---|---|
| Cell.Other | src/classes/GameStatus.ts:14-19 | the complementary mark differs from the given one |
| Cell.GameCell.constructor | src/classes/GameCell.ts:4-16 | a new cell is empty and carries the coordinates it was given |
| Cell.GameCell.GetStatus | src/classes/GameCell.ts:18-20 | returns the stored status |
| Cell.GameCell.SetStatus | src/classes/GameCell.ts:22-32 | an empty cell takes the mark; a non-empty cell keeps its status (write-once); coordinates are constants |
| Cell.GameCell.ResetStatus | src/classes/GameCell.ts:34-40 | the cell is empty afterwards, whatever it held |
| Cell.ResetTwiceIsResetOnce | src/classes/GameCell.ts:34-40 | resetting twice leaves the cell as resetting once does |
| Cell.SecondMarkIsIgnored | src/classes/GameCell.ts:22-32 | on an empty cell, a second `setStatus` does not overwrite the first mark |
| Board.FlattenMembers | src/classes/Game.ts:128 | the flattened board holds exactly the cells of its lines |
| Board.Transpose | src/classes/Game.ts:108-110 | the transpose has one line per column, each as long as the input has lines, with `t[j][i] == state[i][j]`, and only cells of the input |
| Board.TransposeTwice | src/classes/Game.ts:107-110 | transposing a rectangular group twice gives it back |
| Board.Diagonals | src/classes/Game.ts:117-121 | two lines as long as the input has lines, `d[0][i] == state[i][i]` and `d[1][i] == state[i][len-1-i]`, with only cells of the input |
| Board.GameBoard.constructor | src/classes/GameBoard.ts:17-24 | a new board of the given side is a grid of fresh empty cells |
| Board.GameBoard.GenerateCells | src/classes/GameBoard.ts:26-37 | n rows of n fresh empty cells; the cell at [i][j] has coordinates (i, j) |
| Board.GameBoard.HandleBoardState | src/classes/GameBoard.ts:49-70 | rows are the grid itself, the columns are its transpose and the diagonals are its two diagonals; it changes nothing |
| Board.GameBoard.HandleCellClick | src/classes/GameBoard.ts:39-47 | a click on no cell or on a non-empty cell changes nothing; a click on an empty cell marks that cell and no other |
| RoundStatus.GameStatus.constructor | src/classes/GameStatus.ts:5-13 | counters at 0, not running, and the AI's mark is the complement of the player's |
| RoundStatus.GameStatus.SetAiSym | src/classes/GameStatus.ts:14-19 | the AI gets the complement of the player's mark, which is also returned |
| RoundStatus.GameStatus.CleanStatistics | src/classes/GameStatus.ts:20-24 | the three counters are 0; nothing else changes |
| RoundStatus.GameStatus.ChangePlayerSym | src/classes/GameStatus.ts:25-29 | the player takes the other mark and the AI the one the player gave up |
| RoundStatus.CleanTwice | src/classes/GameStatus.ts:20-24 | cleaning twice zeroes the counters and keeps marks and running flag, as cleaning once does |
| RoundStatus.ChangePlayerSymTwice | src/classes/GameStatus.ts:25-29 | changing the player's mark twice restores both marks and keeps the counters |
| MatchController.FirstWinnerIsFirstWinningLine | src/classes/Game.ts:80-94 | there is a result exactly when some line is uniformly marked, and it is the result for the first such line in index order |
| MatchController.WinnerIsPlayerIffPlayersMark | src/classes/Game.ts:87-90 | the winner is 'Player' exactly when the line's mark is the player's; `winCells` is a winning line of the group |
| MatchController.CheckWinner | src/classes/Game.ts:80-94 | the loop with early return yields the first winning line's result, or none; it leaves every group's result unchanged |
| MatchController.WinnerImpliesFullLine | src/classes/Game.ts:96-100 | a group with a winning line has a line without empty cells |
| MatchController.CheckHorizontal | src/classes/Game.ts:102-105 | the full-line pre-check never changes the result of `checkWinner`; the check reads only |
| MatchController.CheckVertical | src/classes/Game.ts:107-114 | the result is `checkWinner` over the transpose of the argument; the check reads only |
| MatchController.CheckDiagonal | src/classes/Game.ts:116-125 | the result is `checkWinner` over the two diagonals of the argument; the check reads only |
| MatchController.CheckDraw | src/classes/Game.ts:127-133 | 'Draw' exactly when no cell of the board is empty |
| MatchController.FlatEmptyIsBoardEmpty | src/classes/Game.ts:128-131 | the flat list has an empty cell exactly when some cell of the board is empty |
| MatchController.DiagonalsOfDiagonals | src/classes/Game.ts:139 | handed the two diagonals, the diagonal check builds the 2-cell lines (0,0)-(1,n-2) and (1,1)-(0,n-1) |
| MatchController.ColumnsOfColumns | src/classes/Game.ts:138 | handed the columns, the column check transposes them back into the rows |
| MatchController.GameStatusOfMeaning | src/classes/Game.ts:135-167 | a winning row is reported first, even on a full board; a column win is never reported; a diagonal win is one of the two 2-cell pairs; otherwise a full board is a draw and any other board goes on |
| MatchController.ColumnWinIsMissed | src/classes/Game.ts:136-140 | a uniformly marked column with no winning row or pair gives a draw or the next round, never a win |
| MatchController.Game.constructor | src/classes/Game.ts:19-30 | an empty board of the given side, zeroed counters, and the first move of a round assigned: player's mark by `random`, the player to move |
| MatchController.Game.FirstMoveInRound | src/classes/Game.ts:169-177 | the player's mark is X when `random < 0.5`, else O; the marks come out complementary, so the player is always the side to move |
| MatchController.Game.RunChecks | src/classes/Game.ts:136-140 | the row check sees the rows, the column check the transpose of the columns, the diagonal check the diagonals of the two diagonals, and the draw check the whole board |
| MatchController.Game.SelectOutcome | src/classes/Game.ts:135-163 | the outcome is the first of: a row win, a column win, a diagonal win, a draw, the next round, over the checks as the code wires them |
| MatchController.Game.CheckGameStatus | src/classes/Game.ts:135-167 | returns the selected outcome; only on "next round" does it reassign the marks and the side to move, otherwise nothing changes |
| MoveAdvisor.Filter | src/classes/GameAI.ts:21-31 | a filtered line is never longer than the line |
| MoveAdvisor.FilterMembers | src/classes/GameAI.ts:21-31 | the filtered list holds exactly the line's cells whose status passes the test |
| MoveAdvisor.FilterKeepsOrder | src/classes/GameAI.ts:21-31 | the filtered list keeps the line's order |
| MoveAdvisor.HandleSequenceFirst | src/classes/GameAI.ts:20-38 | a line's first cell goes to the player's, the AI's or the remaining list according to its status |
| MoveAdvisor.HandleSequencePartitions | src/classes/GameAI.ts:20-38 | the three lists together hold every cell of the line as often as the line does, and their lengths add up to the line's length |
| MoveAdvisor.HandleSequenceLists | src/classes/GameAI.ts:20-38 | each list is an ordered subsequence of the line; with complementary marks the third list holds exactly the empty cells |
| MoveAdvisor.FilterNonEmptyIffHolds | src/classes/GameAI.ts:46-47 | the flags `hasPlayerIn` and `hasAiIn` are true exactly when the line holds that mark |
| MoveAdvisor.AnalysisMeaning | src/classes/GameAI.ts:43-53 | a count is set only for a line one side holds alone, equal to the line length minus that side's cells, which is the number of empty cells; `suggestToHold` is false exactly for player-only lines |
| MoveAdvisor.AnalyzeGroup | src/classes/GameAI.ts:39-57 | one entry per line, in the group's order, each the analysis of its line |
| MoveAdvisor.HandleGroup | src/classes/GameAI.ts:39-57 | the `forEach`/`push` loop yields the entry of every line, in order, and leaves every group's analysis unchanged |
| MoveAdvisor.CheckStates | src/classes/GameAI.ts:58-66 | the analyses of the board's rows, columns and diagonals |
| MoveAdvisor.HandleGroups | src/classes/GameAI.ts:60-64 | the three groups are analysed in the order rows, columns, diagonals |
| MoveAdvisor.CheckStateKeepsAll | src/classes/GameAI.ts:67-70 | `filter(Boolean)` keeps every entry, since every entry is an object |
| MoveAdvisor.SelectTheState | src/classes/GameAI.ts:71-82 | the groups under the keys rows, columns and diagonals, in that order, each with all of its entries |
| MoveAdvisor.DeleteEmptyGroups | src/classes/GameAI.ts:166-171 | the deletion loop leaves exactly the groups that have entries, in their order |
| MoveAdvisor.DeletionKeepsEntries | src/classes/GameAI.ts:166-171 | deleting the empty groups never changes the entries that are scanned |
| MoveAdvisor.NothingDeletedFromNonEmpty | src/classes/GameAI.ts:166-171 | when every group has entries, nothing is deleted |
| MoveAdvisor.NoGroupDeletedOnBoard | src/classes/GameAI.ts:164-171 | on a board the deletion loop removes no group |
| MoveAdvisor.BestOfAppend | src/classes/GameAI.ts:130-154 | scanning one more entry is one more step of the callback, for each side |
| MoveAdvisor.BestOfMeaning | src/classes/GameAI.ts:124-162 | -1 exactly when no line has a truthy count; otherwise the smallest truthy count, from the first line that has it (ties keep the earlier line), with that line's empty cells; a count of 0 is ignored |
| MoveAdvisor.ConsiderRange | src/classes/GameAI.ts:130-154 | the callback replaces a side's best only with a truthy count when there is none yet or the count is strictly smaller |
| MoveAdvisor.ScanGroup | src/classes/GameAI.ts:130-154 | the `forEach` over one group continues both sides' scans over that group's entries, in order |
| MoveAdvisor.SelectTheSeq | src/classes/GameAI.ts:124-162 | the loop over the keys computes both sides' scans over the groups' entries in key order |
| MoveAdvisor.GetRandomEmptyCell | src/classes/GameAI.ts:117-123 | the first empty cell of the flat board list, or none when no cell is empty |
| MoveAdvisor.Pick | src/classes/GameAI.ts:96-98 | indexing gives a cell exactly for an index in range, and then the cell at that index |
| MoveAdvisor.PickFromLine | src/classes/GameAI.ts:93-99 | the cell chosen from a best line is one of its cells, and there is one when the index keeps to its range |
| MoveAdvisor.SelectTheCell | src/classes/GameAI.ts:83-116 | if either count is -1, the first empty cell; with both counts at least 1, a tie or a smaller AI count picks from the AI's line and a smaller player count from the player's line |
| MoveAdvisor.AnalyzeGroupSound | src/classes/GameAI.ts:39-57 | every entry's remaining cells are empty cells of the board, and its counts equal their number |
| MoveAdvisor.ScannedEntries | src/classes/GameAI.ts:124-155 | the scanned entries are the rows', then the columns', then the diagonals' |
| MoveAdvisor.EntriesSound | src/classes/GameAI.ts:164-172 | every entry scanned on a board has empty board cells as its remaining cells, and counts equal to their number |
| MoveAdvisor.BestSound | src/classes/GameAI.ts:124-162 | each side's best count is -1 or at least 1, and a best line is that many empty cells of the board |
| MoveAdvisor.ChooseTargetSound | src/classes/GameAI.ts:163-173 | the target is an empty cell of the board; with the index in range there is a target exactly when the board has an empty cell |
| MoveAdvisor.SelectTarget | src/classes/GameAI.ts:163-173 | analysis, group selection, deletion, scan and cell choice compute the target `ChooseTarget` specifies, without changing the board |
| MoveAdvisor.Move | src/classes/GameAI.ts:163-177 | the target, if any, was an empty board cell and now holds the AI's mark; no other cell changes; with the index in range a cell changes exactly when the board had an empty cell |

## Left out

- Rendering and the DOM are not modelled. This covers `render`, each cell's `domEl`,
  `setValue`, `setStatistics`, `resetStatistics` and the click-event wiring. The click
  handler is modelled from the point where the clicked cell has been found.
- The `console.log` calls of `setStatus` are output only, and are not modelled.
- `getCoordinates` reads the coordinates back from DOM data attributes, and is not
  modelled. The coordinates themselves are constant fields of the cell.
- `Math.random` and `randomInteger` are parameters, as described above. The helper
  module that defines `randomInteger` is not part of this model.
- `GameBoard.resize`, `GameBoard.reset`, `Game.resizeGameBoard` and `Game.newGame` are
  not modelled. The first two only throw, and the other two rely on them.
- `checkGameStatus` calls `updateStatistics`, `endGame`, `nextRound` and `setWin`, which
  no class of the game defines. The model returns the selected outcome instead, and
  keeps the counters, the running flag and the cells' win highlighting unchanged.
- Three pieces of source code do not typecheck and are not modelled:
  - `new GameStatus(playerSym, CellStatus.holdO)` passes two arguments to a one-argument
    constructor; the model passes the mark only;
  - the computer player is created with `new IGameAI(...)`, which names an interface;
  - `handleCellClick` uses `this.game`, which `GameBoard` does not have. The click gives
    the cell the mark handed to `HandleCellClick`, and `makeMove` is not modelled.
- CheckWinner, CheckHorizontal, CheckVertical: the inputs on which the source throws
  or reads past a line are required away. Those inputs are:
  - a group with an empty line, handed to `checkWinner` or `checkHorizontal`: the
    source throws a `TypeError` reading the line's first cell;
  - an empty group, handed to `checkVertical`: it throws reading the first line;
  - a group with lines of unequal length, handed to `checkVertical`: shorter lines
    give `undefined` entries, on which `checkWinner` throws, and the extra cells of
    longer lines are ignored.

  The model requires non-empty lines, and a rectangular group for `CheckVertical`.
  `checkGameStatus` hands the checks nothing else on a board (`RunChecks`).
- The constructor of `Game` gives `playerSym` the default `CellStatus.holdX`. The model
  has no default, so callers always pass a mark. Nothing observable depends on it,
  because `firstMoveInRound` overwrites both marks before the constructor returns.
- The `GameAI` constructor only stores its two collaborators. In the model the board
  and the status are parameters of `Move`.
- `src/main.ts`, `webpack.config.js` and `prettier.config.js` are start-up code and build
  configuration, and are not part of this model.
- Move: the promise that a cell changes whenever the board has an empty cell holds only
  when `randomInteger` returns an index in range. The helper that defines it is not part
  of this model.
- SelectTheCell: the first promise covers counts of -1 or more, and the other two cover
  counts of 1 or more, because those are the only counts `selectTheSeq` produces
  (`BestSound`).
