/**
 * The n-by-n grid of cells and the row, column and diagonal views derived
 * from it (GameBoard.ts). The views hold the same cell objects as the grid.
 */
module Board {
  import opened Wrappers
  import opened Cell

  /** CellsInLine: the supported board sides. */
  type CellsInLine = n: int | 3 <= n <= 5 witness 3

  /** Every cell object that occurs in some line of `state`. */
  function CellsIn(state: seq<seq<GameCell>>): (r: set<GameCell>)
    ensures forall i, c :: 0 <= i < |state| && c in state[i] ==> c in r
    ensures forall c :: c in r ==> exists i :: 0 <= i < |state| && c in state[i]
  {
    set line, c | line in state && c in line :: c
  }

  /** `Array.prototype.flat`: the lines one after the other (row-major for a grid). */
  function Flatten(state: seq<seq<GameCell>>): seq<GameCell>
  {
    if state == [] then [] else state[0] + Flatten(state[1..])
  }

  /** The flat list holds exactly the cells of the lines. */
  lemma {:induction false} FlattenMembers(state: seq<seq<GameCell>>)
    ensures forall c :: c in Flatten(state) ==> c in CellsIn(state)
    ensures forall c :: c in CellsIn(state) ==> c in Flatten(state)
  {
    if state != [] {
      FlattenMembers(state[1..]);
      assert state == [state[0]] + state[1..];
      forall c | c in CellsIn(state) ensures c in Flatten(state) {
        var i :| 0 <= i < |state| && c in state[i];
        if i > 0 {
          assert c in state[1..][i - 1];
        }
      }
    }
  }

  /** Some cell of the lines is empty. */
  predicate HasEmptyCell(state: seq<seq<GameCell>>)
    reads CellsIn(state)
  {
    exists c :: c in CellsIn(state) && c.GetStatus() == Empty
  }

  /** An n-by-n grid whose cell at [i][j] has coordinates (i, j). */
  ghost predicate IsGrid(cells: seq<seq<GameCell>>, n: int)
  {
    && |cells| == n
    && (forall i :: 0 <= i < n ==> |cells[i]| == n)
    && (forall i, j :: 0 <= i < n && 0 <= j < n ==> cells[i][j].xCoord == i && cells[i][j].yCoord == j)
  }

  /** A grid of one of the supported sides. */
  ghost predicate IsBoard(cells: seq<seq<GameCell>>)
  {
    3 <= |cells| <= 5 && IsGrid(cells, |cells|)
  }

  /** Lines of equal length, none shorter than the first. */
  ghost predicate IsRectangular(state: seq<seq<GameCell>>)
  {
    |state| > 0 && forall i :: 0 <= i < |state| ==> |state[i]| == |state[0]|
  }

  /** `state[0].map((_, col) => state.map(row => row[col]))`: the columns of `state`. */
  function Transpose(state: seq<seq<GameCell>>): (t: seq<seq<GameCell>>)
    requires IsRectangular(state)
    ensures |t| == |state[0]|
    ensures forall j :: 0 <= j < |t| ==> |t[j]| == |state|
    ensures forall i, j :: 0 <= i < |state| && 0 <= j < |t| ==> t[j][i] == state[i][j]
    ensures CellsIn(t) <= CellsIn(state)
  {
    var t := seq(|state[0]|, j requires 0 <= j < |state[0]| =>
                seq(|state|, i requires 0 <= i < |state| => state[i][j]));
    assert forall c :: c in CellsIn(t) ==> c in CellsIn(state) by {
      forall c | c in CellsIn(t) ensures c in CellsIn(state) {
        var j :| 0 <= j < |t| && c in t[j];
        var i :| 0 <= i < |state| && t[j][i] == c;
        assert c in state[i];
      }
    }
    t
  }

  /** Transposing twice gives the lines back. */
  lemma TransposeTwice(state: seq<seq<GameCell>>)
    requires IsRectangular(state) && |state[0]| > 0
    ensures IsRectangular(Transpose(state))
    ensures Transpose(Transpose(state)) == state
  {
    var t := Transpose(state);
    var tt := Transpose(t);
    assert |tt| == |state|;
    forall i | 0 <= i < |state| ensures tt[i] == state[i] {
      assert |tt[i]| == |state[i]|;
    }
  }

  /** The two diagonals of `state`: `state[i][i]` and `state[i][len - 1 - i]`,
      each as long as `state` has lines. */
  function Diagonals(state: seq<seq<GameCell>>): (d: seq<seq<GameCell>>)
    requires forall i :: 0 <= i < |state| ==> |state[i]| >= |state|
    ensures |d| == 2 && |d[0]| == |state| && |d[1]| == |state|
    ensures forall i :: 0 <= i < |state| ==> d[0][i] == state[i][i] && d[1][i] == state[i][|state| - 1 - i]
    ensures CellsIn(d) <= CellsIn(state)
  {
    var n := |state|;
    var left := seq(n, i requires 0 <= i < n => state[i][i]);
    var right := seq(n, i requires 0 <= i < n => state[i][n - 1 - i]);
    var d := [left, right];
    assert forall c :: c in CellsIn(d) ==> c in CellsIn(state) by {
      forall c | c in CellsIn(d) ensures c in CellsIn(state) {
        var k :| 0 <= k < 2 && c in d[k];
        var i :| 0 <= i < n && d[k][i] == c;
        assert c in state[i];
      }
    }
    d
  }

  /** BoardState: the three groups of lines the game and the AI inspect. */
  datatype BoardState = BoardState(rows: seq<seq<GameCell>>, columns: seq<seq<GameCell>>, diagonals: seq<seq<GameCell>>)

  /** The first `m` cells of column `k`. */
  function ColumnPrefix(cells: seq<seq<GameCell>>, k: int, m: int): seq<GameCell>
    requires 0 <= m <= |cells| && 0 <= k
    requires forall i :: 0 <= i < m ==> k < |cells[i]|
  {
    seq(m, i requires 0 <= i < m => cells[i][k])
  }

  /** The cells of the main and the anti-diagonal in the first `m` rows of an n-wide grid. */
  function MainPrefix(cells: seq<seq<GameCell>>, m: int): seq<GameCell>
    requires 0 <= m <= |cells|
    requires forall i :: 0 <= i < m ==> i < |cells[i]|
  {
    seq(m, i requires 0 <= i < m => cells[i][i])
  }

  function AntiPrefix(cells: seq<seq<GameCell>>, n: int, m: int): seq<GameCell>
    requires 0 <= m <= |cells| && m <= n
    requires forall i :: 0 <= i < m ==> n - 1 - i < |cells[i]|
  {
    seq(m, i requires 0 <= i < m => cells[i][n - 1 - i])
  }

  class GameBoard {
    var cells: seq<seq<GameCell>>
    var cellsInLine: CellsInLine

    ghost predicate Valid()
      reads this
    {
      IsGrid(cells, cellsInLine)
    }

    /** The cell objects of the board. */
    function Cells(): set<GameCell>
      reads this
    {
      CellsIn(cells)
    }

    /** A new board of side `cellsInLine`, all cells empty (rendering left out). */
    constructor (cellsInLine: CellsInLine)
      ensures Valid() && this.cellsInLine == cellsInLine
      ensures forall c :: c in Cells() ==> fresh(c) && c.status == Empty
    {
      this.cellsInLine := cellsInLine;
      var generated := GenerateCells(cellsInLine);
      cells := generated;
    }

    /** n rows of n new empty cells; the cell at [i][j] has coordinates (i, j). */
    static method GenerateCells(size: CellsInLine) returns (cells: seq<seq<GameCell>>)
      ensures IsGrid(cells, size)
      ensures forall c :: c in CellsIn(cells) ==> fresh(c) && c.status == Empty
    {
      cells := [];
      var i := 0;
      while i < size
        invariant 0 <= i <= size && |cells| == i
        invariant forall r :: 0 <= r < i ==> |cells[r]| == size
        invariant forall r, k :: 0 <= r < i && 0 <= k < size ==>
          cells[r][k].xCoord == r && cells[r][k].yCoord == k && fresh(cells[r][k]) && cells[r][k].status == Empty
      {
        var row: seq<GameCell> := [];
        var j := 0;
        while j < size
          invariant 0 <= j <= size && |row| == j
          invariant forall k :: 0 <= k < j ==>
            row[k].xCoord == i && row[k].yCoord == k && fresh(row[k]) && row[k].status == Empty
          invariant forall r, k :: 0 <= r < i && 0 <= k < size ==>
            fresh(cells[r][k]) && cells[r][k].status == Empty
        {
          var cell := new GameCell(i, j);
          row := row + [cell];
          j := j + 1;
        }
        cells := cells + [row];
        i := i + 1;
      }
    }

    /** Rows are the grid itself; columns and diagonals are collected cell by cell.
        Only reads the board. */
    method HandleBoardState() returns (state: BoardState)
      requires Valid()
      ensures IsRectangular(cells)
      ensures state.rows == cells
      ensures state.columns == Transpose(cells) && state.diagonals == Diagonals(cells)
    {
      var n: int := cellsInLine;
      var columns: seq<seq<GameCell>> := seq(n, _ => []);
      var left: seq<GameCell> := [];
      var right: seq<GameCell> := [];
      var i := 0;
      while i < n
        invariant 0 <= i <= n && |columns| == n
        invariant forall k :: 0 <= k < n ==> columns[k] == ColumnPrefix(cells, k, i)
        invariant left == MainPrefix(cells, i) && right == AntiPrefix(cells, n, i)
      {
        var j := 0;
        while j < n
          invariant 0 <= j <= n && |columns| == n
          invariant forall k :: 0 <= k < j ==> columns[k] == ColumnPrefix(cells, k, i + 1)
          invariant forall k :: j <= k < n ==> columns[k] == ColumnPrefix(cells, k, i)
          invariant left == MainPrefix(cells, i) + (if j > i then [cells[i][i]] else [])
          invariant right == AntiPrefix(cells, n, i) + (if j > n - 1 - i then [cells[i][n - 1 - i]] else [])
        {
          assert ColumnPrefix(cells, j, i + 1) == ColumnPrefix(cells, j, i) + [cells[i][j]];
          columns := columns[j := columns[j] + [cells[i][j]]];
          if i == j {
            left := left + [cells[i][j]];
          }
          if i + j == n - 1 {
            right := right + [cells[i][j]];
          }
          j := j + 1;
        }
        assert MainPrefix(cells, i + 1) == MainPrefix(cells, i) + [cells[i][i]];
        assert AntiPrefix(cells, n, i + 1) == AntiPrefix(cells, n, i) + [cells[i][n - 1 - i]];
        i := i + 1;
      }
      state := BoardState(cells, columns, [left, right]);
      assert IsRectangular(cells);
      var t := Transpose(cells);
      forall k | 0 <= k < n ensures columns[k] == t[k] {
        assert |columns[k]| == |t[k]|;
      }
    }

    /** The guard of the click handler: nothing happens unless the clicked cell
        (the board cell found for the event, if any) is empty; then it takes `sym`. */
    method HandleCellClick(cell: Option<GameCell>, sym: PlayerSym)
      requires cell.Some? ==> cell.value in Cells()
      modifies Cells()
      ensures forall c :: c in Cells() ==>
        c.status == (if cell == Some(c) && old(c.status) == Empty then sym else old(c.status))
    {
      if cell.None? || cell.value.status != Empty {
        return;
      }
      cell.value.SetStatus(sym);
    }
  }
}
