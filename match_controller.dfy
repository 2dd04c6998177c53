/**
 * Win and draw detection and the round bookkeeping of the game (Game.ts).
 *
 * `checkGameStatus` is modelled as the code wires it: the column check is
 * handed the board's columns and transposes them back into rows, and the
 * diagonal check is handed the two diagonals and takes the "diagonals" of
 * that 2-line group, so it compares two 2-cell lines.
 */
module MatchController {
  import opened Wrappers
  import opened Cell
  import opened Board
  import opened RoundStatus

  /** Player: who a round result is for. */
  datatype Player = Player | AI

  /** RoundResult: the winner and the line of cells that won. */
  datatype RoundResult = RoundResult(winner: Player, winCells: seq<GameCell>)

  /** What `checkGameStatus` selects, in the order it tests for it. */
  datatype Outcome =
    | WinByRows(result: RoundResult)
    | WinByColumns(result: RoundResult)
    | WinByDiagonals(result: RoundResult)
    | Draw
    | NextRound

  /** A line whose first cell holds a mark that every cell of the line holds. */
  predicate IsWinningLine(line: seq<GameCell>)
    reads line
  {
    |line| > 0 && line[0].GetStatus() != Empty && AllHave(line, line[0].GetStatus())
  }

  /** `line.every((cell) => cell.getStatus() === value)` */
  predicate AllHave(line: seq<GameCell>, value: CellStatus)
    reads line
  {
    forall k :: 0 <= k < |line| ==> line[k].GetStatus() == value
  }

  /** `'Player'` when the line's mark is the player's, `'AI'` otherwise. */
  function ResultFor(line: seq<GameCell>, playerSym: PlayerSym): RoundResult
    requires |line| > 0
    reads line
  {
    RoundResult(if playerSym == line[0].GetStatus() then Player else AI, line)
  }

  /** The result for the first winning line of `state`, if there is one. */
  function FirstWinner(state: seq<seq<GameCell>>, playerSym: PlayerSym): Option<RoundResult>
    reads CellsIn(state)
  {
    if state == [] then None
    else if IsWinningLine(state[0]) then Some(ResultFor(state[0], playerSym))
    else FirstWinner(state[1..], playerSym)
  }

  /** There is a result exactly when some line wins, and it is the result for the
      first winning line in index order. */
  lemma {:induction false} FirstWinnerIsFirstWinningLine(state: seq<seq<GameCell>>, playerSym: PlayerSym)
    ensures var r := FirstWinner(state, playerSym);
      && (r.None? <==> forall k :: 0 <= k < |state| ==> !IsWinningLine(state[k]))
      && (r.Some? ==>
            exists k :: && 0 <= k < |state| && IsWinningLine(state[k])
                        && (forall j :: 0 <= j < k ==> !IsWinningLine(state[j]))
                        && r.value == ResultFor(state[k], playerSym))
  {
    if state != [] && !IsWinningLine(state[0]) {
      FirstWinnerIsFirstWinningLine(state[1..], playerSym);
      assert forall k :: 0 < k < |state| ==> state[k] == state[1..][k - 1];
      var r := FirstWinner(state[1..], playerSym);
      if r.Some? {
        var k :| && 0 <= k < |state[1..]| && IsWinningLine(state[1..][k])
                 && (forall j :: 0 <= j < k ==> !IsWinningLine(state[1..][j]))
                 && r.value == ResultFor(state[1..][k], playerSym);
        assert IsWinningLine(state[k + 1]);
      }
    }
  }

  /** A winning result names its winner by comparing the line's mark with the player's. */
  lemma WinnerIsPlayerIffPlayersMark(state: seq<seq<GameCell>>, playerSym: PlayerSym)
    requires FirstWinner(state, playerSym).Some?
    ensures var res := FirstWinner(state, playerSym).value;
      |res.winCells| > 0 && res.winCells in state && IsWinningLine(res.winCells)
      && (res.winner == Player <==> res.winCells[0].GetStatus() == playerSym)
  {
    FirstWinnerIsFirstWinningLine(state, playerSym);
  }

  /** `checkWinner`: the first line, in index order, that is uniformly marked. */
  method CheckWinner(state: seq<seq<GameCell>>, playerSym: PlayerSym) returns (r: Option<RoundResult>)
    requires forall k :: 0 <= k < |state| ==> |state[k]| > 0
    ensures r == FirstWinner(state, playerSym)
    // It only reads the cells: the first winner of any group is what it was.
    ensures forall s :: old(allocated(s)) ==> FirstWinner(s, playerSym) == old(FirstWinner(s, playerSym))
  {
    FirstWinnerIsFirstWinningLine(state, playerSym);
    var i := 0;
    while i < |state|
      invariant 0 <= i <= |state|
      invariant forall j :: 0 <= j < i ==> !IsWinningLine(state[j])
    {
      var checkValue := state[i][0].GetStatus();
      if checkValue != Empty && AllHave(state[i], checkValue) {
        return Some(RoundResult(if playerSym == checkValue then Player else AI, state[i]));
      }
      i := i + 1;
    }
    return None;
  }

  /** `hasCollectionsNotEmptySequences`: some line has no empty cell. */
  predicate HasCollectionsNotEmptySequences(state: seq<seq<GameCell>>)
    reads CellsIn(state)
  {
    exists k :: 0 <= k < |state| && IsFullLine(state[k])
  }

  predicate IsFullLine(line: seq<GameCell>)
    reads line
  {
    forall k :: 0 <= k < |line| ==> line[k].GetStatus() != Empty
  }

  /** A winning line has no empty cell, so a winner implies the full-line pre-check holds. */
  lemma WinnerImpliesFullLine(state: seq<seq<GameCell>>, playerSym: PlayerSym)
    requires FirstWinner(state, playerSym).Some?
    ensures HasCollectionsNotEmptySequences(state)
  {
    FirstWinnerIsFirstWinningLine(state, playerSym);
    var k :| 0 <= k < |state| && IsWinningLine(state[k]);
    assert IsFullLine(state[k]);
  }

  /** `checkHorizontal`: the full-line pre-check never changes the result of `checkWinner`. */
  method CheckHorizontal(state: seq<seq<GameCell>>, playerSym: PlayerSym) returns (r: Option<RoundResult>)
    requires forall k :: 0 <= k < |state| ==> |state[k]| > 0
    ensures r == FirstWinner(state, playerSym)
    // It only reads the cells: the first winner of any group is what it was.
    ensures forall s :: old(allocated(s)) ==> FirstWinner(s, playerSym) == old(FirstWinner(s, playerSym))
  {
    if HasCollectionsNotEmptySequences(state) {
      r := CheckWinner(state, playerSym);
    } else {
      if FirstWinner(state, playerSym).Some? {
        WinnerImpliesFullLine(state, playerSym);
      }
      r := None;
    }
  }

  /** `checkVertical`: `checkWinner` over the transpose of its argument. */
  method CheckVertical(state: seq<seq<GameCell>>, playerSym: PlayerSym) returns (r: Option<RoundResult>)
    requires IsRectangular(state)
    ensures r == FirstWinner(Transpose(state), playerSym)
    // It only reads the cells: the first winner of any group is what it was.
    ensures forall s :: old(allocated(s)) ==> FirstWinner(s, playerSym) == old(FirstWinner(s, playerSym))
  {
    var transposedState := Transpose(state);
    r := CheckHorizontal(transposedState, playerSym);
  }

  /** `checkDiagonal`: `checkWinner` over the two diagonals of its argument. */
  method CheckDiagonal(state: seq<seq<GameCell>>, playerSym: PlayerSym) returns (r: Option<RoundResult>)
    requires |state| > 0 && forall i :: 0 <= i < |state| ==> |state[i]| >= |state|
    ensures r == FirstWinner(Diagonals(state), playerSym)
    // It only reads the cells: the first winner of any group is what it was.
    ensures forall s :: old(allocated(s)) ==> FirstWinner(s, playerSym) == old(FirstWinner(s, playerSym))
  {
    var diagonals := Diagonals(state);
    r := CheckHorizontal(diagonals, playerSym);
  }

  /** `checkDraw`: 'Draw' (true) exactly when no cell of the board is empty. */
  function CheckDraw(cells: seq<seq<GameCell>>): (r: bool)
    reads CellsIn(cells)
    ensures r <==> forall c :: c in CellsIn(cells) ==> c.GetStatus() != Empty
  {
    var allCells := Flatten(cells);
    FlattenMembers(cells);
    FlatEmptyIsBoardEmpty(cells);
    !exists k :: 0 <= k < |allCells| && allCells[k].GetStatus() == Empty
  }

  /** Searching the flat list for an empty cell searches every cell of the lines. */
  lemma FlatEmptyIsBoardEmpty(cells: seq<seq<GameCell>>)
    ensures (exists k :: 0 <= k < |Flatten(cells)| && Flatten(cells)[k].GetStatus() == Empty)
        ==> (exists c :: c in CellsIn(cells) && c.GetStatus() == Empty)
    ensures (exists c :: c in CellsIn(cells) && c.GetStatus() == Empty)
        ==> (exists k :: 0 <= k < |Flatten(cells)| && Flatten(cells)[k].GetStatus() == Empty)
  {
    FlattenMembers(cells);
    var allCells := Flatten(cells);
    if exists k :: 0 <= k < |allCells| && allCells[k].GetStatus() == Empty {
      var k :| 0 <= k < |allCells| && allCells[k].GetStatus() == Empty;
      var c := allCells[k];
      assert c in allCells;
      assert c in CellsIn(cells) && c.GetStatus() == Empty;
    }
    if exists c :: c in CellsIn(cells) && c.GetStatus() == Empty {
      var c :| c in CellsIn(cells) && c.GetStatus() == Empty;
      assert c in allCells;
      var k :| 0 <= k < |allCells| && allCells[k] == c;
    }
  }

  /** The two 2-cell lines the diagonal check ends up comparing on an n-by-n board. */
  function InspectedDiagonalPairs(cells: seq<seq<GameCell>>): seq<seq<GameCell>>
    requires IsBoard(cells)
  {
    var n := |cells|;
    [[cells[0][0], cells[1][n - 2]], [cells[1][1], cells[0][n - 1]]]
  }

  /** Handed the board's two diagonals, `checkDiagonal` builds two lines of 2 cells:
      (0,0) with (1,n-2), and (1,1) with (0,n-1). */
  lemma DiagonalsOfDiagonals(cells: seq<seq<GameCell>>)
    requires IsBoard(cells)
    ensures Diagonals(Diagonals(cells)) == InspectedDiagonalPairs(cells)
  {
    var n := |cells|;
    var d := Diagonals(cells);
    var dd := Diagonals(d);
    assert dd[0] == [d[0][0], d[1][1]];
    assert dd[1] == [d[0][1], d[1][0]];
    assert d[1][1] == cells[1][n - 2];
  }

  /** Handed the board's columns, `checkVertical` transposes them back into the rows. */
  lemma ColumnsOfColumns(cells: seq<seq<GameCell>>)
    requires IsBoard(cells)
    ensures IsRectangular(Transpose(cells))
    ensures Transpose(Transpose(cells)) == cells
  {
    assert IsRectangular(cells);
    TransposeTwice(cells);
  }

  /** The outcome `checkGameStatus` selects: rows, then columns, then diagonals, then draw,
      each check made on the group of lines the code hands it. */
  function GameStatusOf(cells: seq<seq<GameCell>>, playerSym: PlayerSym): Outcome
    requires IsBoard(cells)
    reads CellsIn(cells)
  {
    Decide(FirstWinner(cells, playerSym),
           FirstWinner(Transpose(Transpose(cells)), playerSym),
           FirstWinner(Diagonals(Diagonals(cells)), playerSym),
           CheckDraw(cells))
  }

  /** The decision order of `checkGameStatus` over the four checks' results. */
  function Decide(winByRows: Option<RoundResult>, winByColumns: Option<RoundResult>,
                  winByDiagonals: Option<RoundResult>, isDraw: bool): Outcome
  {
    if winByRows.Some? then WinByRows(winByRows.value)
    else if winByColumns.Some? then WinByColumns(winByColumns.value)
    else if winByDiagonals.Some? then WinByDiagonals(winByDiagonals.value)
    else if isDraw then Draw
    else NextRound
  }

  /** What the selected outcome means on the board: a winning row is reported first,
      even on a full board; a column is never reported; a diagonal win is one of the
      two inspected 2-cell pairs; otherwise a full board is a draw and any other board
      goes on to the next round. */
  lemma GameStatusOfMeaning(cells: seq<seq<GameCell>>, playerSym: PlayerSym)
    requires IsBoard(cells)
    ensures var o := GameStatusOf(cells, playerSym);
      && !o.WinByColumns?
      && (o.WinByRows? <==> exists i :: 0 <= i < |cells| && IsWinningLine(cells[i]))
      && (o.WinByRows? ==> Some(o.result) == FirstWinner(cells, playerSym))
      && (o.WinByDiagonals? ==>
            Some(o.result) == FirstWinner(InspectedDiagonalPairs(cells), playerSym) && |o.result.winCells| == 2)
      && (o == Draw <==>
            && (forall i :: 0 <= i < |cells| ==> !IsWinningLine(cells[i]))
            && (forall k :: 0 <= k < 2 ==> !IsWinningLine(InspectedDiagonalPairs(cells)[k]))
            && (forall c :: c in CellsIn(cells) ==> c.GetStatus() != Empty))
      && (o == NextRound <==>
            && (forall i :: 0 <= i < |cells| ==> !IsWinningLine(cells[i]))
            && (forall k :: 0 <= k < 2 ==> !IsWinningLine(InspectedDiagonalPairs(cells)[k]))
            && (exists c :: c in CellsIn(cells) && c.GetStatus() == Empty))
  {
    ColumnsOfColumns(cells);
    DiagonalsOfDiagonals(cells);
    FirstWinnerIsFirstWinningLine(cells, playerSym);
    FirstWinnerIsFirstWinningLine(InspectedDiagonalPairs(cells), playerSym);
  }

  /** A column held entirely by one mark is not a win: unless a row or one of the
      two inspected pairs wins, the round goes on (or is a draw on a full board). */
  lemma ColumnWinIsMissed(cells: seq<seq<GameCell>>, playerSym: PlayerSym, j: int)
    requires IsBoard(cells) && 0 <= j < |cells|
    requires IsWinningLine(Transpose(cells)[j])
    requires forall i :: 0 <= i < |cells| ==> !IsWinningLine(cells[i])
    requires forall k :: 0 <= k < 2 ==> !IsWinningLine(InspectedDiagonalPairs(cells)[k])
    ensures GameStatusOf(cells, playerSym) == Draw || GameStatusOf(cells, playerSym) == NextRound
  {
    GameStatusOfMeaning(cells, playerSym);
  }

  class Game {
    var player: Option<Player>
    var status: GameStatus
    var gameBoard: GameBoard
    var aiSym: PlayerSym

    ghost predicate Valid()
      reads this, status, gameBoard
    {
      status.Valid() && gameBoard.Valid()
    }

    /** A new game: an empty board of the given side, fresh statistics, then the
        first move of a round is assigned (the AI and the statistics display are left out). */
    constructor (cellsInLine: CellsInLine, playerSym: PlayerSym, random: real)
      requires 0.0 <= random < 1.0
      ensures Valid() && fresh(gameBoard) && fresh(status)
      ensures gameBoard.cellsInLine == cellsInLine
      ensures forall c :: c in gameBoard.Cells() ==> c.status == Empty
      ensures status.playerWins == 0 && status.aiWins == 0 && status.draws == 0 && !status.isRunning
      ensures status.playerSym == (if random < 0.5 then HoldX else HoldO)
      ensures aiSym == HoldO && player == Some(Player)
    {
      gameBoard := new GameBoard(cellsInLine);
      status := new GameStatus(playerSym);
      aiSym := HoldO;
      player := None;
      new;
      FirstMoveInRound(random);
    }

    /** `firstMoveInRound`: `random` is the value of `Math.random()`. The marks come
        out complementary, so the side to move is always the player. */
    method FirstMoveInRound(random: real)
      requires 0.0 <= random < 1.0
      modifies this`player, status`playerSym, status`aiSym
      ensures status.playerSym == (if random < 0.5 then HoldX else HoldO)
      ensures status.Valid() && player == Some(Player)
    {
      status.playerSym := if random < 0.5 then HoldX else HoldO;
      status.aiSym := if status.playerSym == HoldX then HoldO else HoldX;
      player := if status.playerSym == status.aiSym then Some(AI) else Some(Player);
    }

    /** The four checks of `checkGameStatus`, each on the group of lines the code hands
        it; reads the board and the marks only. */
    method RunChecks() returns (winByRows: Option<RoundResult>, winByColumns: Option<RoundResult>,
                                winByDiagonals: Option<RoundResult>, isDraw: bool)
      requires Valid()
      ensures IsBoard(gameBoard.cells)
      ensures winByRows == FirstWinner(gameBoard.cells, status.playerSym)
      ensures winByColumns == FirstWinner(Transpose(Transpose(gameBoard.cells)), status.playerSym)
      ensures winByDiagonals == FirstWinner(Diagonals(Diagonals(gameBoard.cells)), status.playerSym)
      ensures isDraw == CheckDraw(gameBoard.cells)
    {
      var boardState := gameBoard.HandleBoardState();
      winByRows := CheckHorizontal(boardState.rows, status.playerSym);
      winByColumns := CheckVertical(boardState.columns, status.playerSym);
      winByDiagonals := CheckDiagonal(boardState.diagonals, status.playerSym);
      isDraw := CheckDraw(gameBoard.cells);
    }

    /** The order `checkGameStatus` consults the four checks in; reads the board and
        the marks only. */
    method SelectOutcome() returns (outcome: Outcome)
      requires Valid()
      ensures outcome == GameStatusOf(gameBoard.cells, status.playerSym)
    {
      var winByRows, winByColumns, winByDiagonals, isDraw := RunChecks();
      if winByRows.Some? {
        outcome := WinByRows(winByRows.value);
      } else if winByColumns.Some? {
        outcome := WinByColumns(winByColumns.value);
      } else if winByDiagonals.Some? {
        outcome := WinByDiagonals(winByDiagonals.value);
      } else if isDraw {
        outcome := Draw;
      } else {
        outcome := NextRound;
      }
    }

    /** `checkGameStatus`: returns the outcome it selects; only when there is
        neither a win nor a draw does it start the next round's first move. */
    method CheckGameStatus(random: real) returns (outcome: Outcome)
      requires Valid() && 0.0 <= random < 1.0
      modifies this`player, status`playerSym, status`aiSym
      ensures Valid()
      ensures outcome == GameStatusOf(gameBoard.cells, old(status.playerSym))
      ensures outcome == NextRound ==>
        status.playerSym == (if random < 0.5 then HoldX else HoldO) && player == Some(Player)
      ensures outcome != NextRound ==>
        status.playerSym == old(status.playerSym) && status.aiSym == old(status.aiSym) && player == old(player)
    {
      outcome := SelectOutcome();
      if outcome == NextRound {
        label selected:
        FirstMoveInRound(random);
        assert unchanged@selected(gameBoard.Cells());
      }
    }
  }
}
