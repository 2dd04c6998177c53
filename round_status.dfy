/**
 * Per-match bookkeeping: whose mark is whose, the running flag and the
 * win/draw counters (GameStatus.ts).
 */
module RoundStatus {
  import opened Cell

  class GameStatus {
    var isRunning: bool
    var playerSym: PlayerSym
    var aiSym: PlayerSym
    var aiWins: int
    var draws: int
    var playerWins: int

    /** The two marks are complementary. */
    ghost predicate Valid()
      reads this
    {
      aiSym == Other(playerSym)
    }

    /** A new status: not running, no wins or draws, the AI holds the other mark. */
    constructor (playerSym: PlayerSym)
      ensures Valid()
      ensures this.playerSym == playerSym
      ensures !isRunning && aiWins == 0 && draws == 0 && playerWins == 0
    {
      isRunning := false;
      aiWins := 0;
      draws := 0;
      playerWins := 0;
      this.playerSym := playerSym;
      new;
      var _ := SetAiSym();
    }

    /** Gives the AI the mark the player does not hold and returns it. */
    method SetAiSym() returns (sym: PlayerSym)
      modifies this`aiSym
      ensures Valid() && sym == aiSym
      ensures sym != playerSym
    {
      aiSym := if playerSym == HoldX then HoldO else HoldX;
      sym := aiSym;
    }

    /** Zeroes the three counters; marks and the running flag are kept. */
    method CleanStatistics()
      modifies this`playerWins, this`aiWins, this`draws
      ensures playerWins == 0 && aiWins == 0 && draws == 0
    {
      playerWins := 0;
      aiWins := 0;
      draws := 0;
    }

    /** The player takes the other mark, and the AI the one the player gave up. */
    method ChangePlayerSym()
      modifies this`playerSym, this`aiSym
      ensures playerSym == Other(old(playerSym))
      ensures Valid() && aiSym == old(playerSym)
    {
      playerSym := if playerSym == HoldX then HoldO else HoldX;
      var _ := SetAiSym();
    }
  }

  /** A client of the contracts: cleaning twice leaves what cleaning once leaves. */
  method CleanTwice(s: GameStatus)
    modifies s
    ensures s.playerWins == 0 && s.aiWins == 0 && s.draws == 0
    ensures s.playerSym == old(s.playerSym) && s.aiSym == old(s.aiSym) && s.isRunning == old(s.isRunning)
  {
    s.CleanStatistics();
    s.CleanStatistics();
  }

  /** A client of the contracts: changing the player's mark twice restores both marks. */
  method ChangePlayerSymTwice(s: GameStatus)
    requires s.Valid()
    modifies s
    ensures s.Valid()
    ensures s.playerSym == old(s.playerSym) && s.aiSym == old(s.aiSym)
    ensures s.playerWins == old(s.playerWins) && s.aiWins == old(s.aiWins) && s.draws == old(s.draws)
  {
    s.ChangePlayerSym();
    s.ChangePlayerSym();
  }
}
