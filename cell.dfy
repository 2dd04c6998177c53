/**
 * A single board position and its occupancy (GameCell.ts and the CellStatus
 * enum of IGameCell.ts).
 */
module Cell {

  /** CellStatus: `empty` (the falsy value 0), `holdX` ('X') and `holdO` ('O'). */
  datatype CellStatus = Empty | HoldX | HoldO

  /** PlayerSym: the two marks a side can play with. */
  type PlayerSym = s: CellStatus | s != Empty witness HoldX

  /** The complementary mark: X for O and O for X. */
  function Other(s: PlayerSym): (r: PlayerSym)
    ensures r != s
  {
    if s == HoldX then HoldO else HoldX
  }

  class GameCell {
    var status: CellStatus
    // No code of the game writes the coordinates after construction.
    const xCoord: int
    const yCoord: int

    /** A new cell is empty and sits at the given coordinates. */
    constructor (xCoord: int, yCoord: int)
      ensures status == Empty
      ensures this.xCoord == xCoord && this.yCoord == yCoord
    {
      this.xCoord := xCoord;
      this.yCoord := yCoord;
      status := Empty;
    }

    /** The stored status; reading it changes nothing. */
    function GetStatus(): (r: CellStatus)
      reads this
      ensures r == status
    {
      status
    }

    /** Write-once: a mark is written only into an empty cell. */
    method SetStatus(sym: CellStatus)
      modifies this`status
      ensures old(status) == Empty ==> status == sym
      ensures old(status) != Empty ==> status == old(status)
    {
      if status == Empty {
        status := sym;
      }
    }

    /** Clears the cell; the guard `if (this.status)` skips an already empty cell. */
    method ResetStatus()
      modifies this`status
      ensures status == Empty
    {
      if status != Empty {
        status := Empty;
      }
    }
  }

  /** A client of the contracts: resetting twice is the same as resetting once. */
  method ResetTwiceIsResetOnce(c: GameCell)
    modifies c`status
    ensures c.status == Empty
  {
    c.ResetStatus();
    c.ResetStatus();
  }

  /** A client of the contracts: a second mark never overwrites the first. */
  method SecondMarkIsIgnored(c: GameCell, first: PlayerSym, second: PlayerSym)
    requires c.status == Empty
    modifies c`status
    ensures c.status == first
  {
    c.SetStatus(first);
    c.SetStatus(second);
  }
}
