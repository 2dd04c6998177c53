/**
 * The AI's one-ply move heuristic (GameAI.ts).
 *
 * Every line of the board (rows, columns, diagonals) is split into the
 * player's, the AI's and the remaining cells; a line held by one side only
 * gets a "moves to win" count. The smallest count per side is selected over
 * all lines, and the target cell is taken from the winning side's line, or
 * is the first empty cell of the board.
 */
module MoveAdvisor {
  import opened Wrappers
  import opened Cell
  import opened Board
  import opened RoundStatus
  import opened MatchController

  /** The three lists `handleSequince` splits a line into. */
  datatype SeqCells = SeqCells(playerCells: seq<GameCell>, aiCells: seq<GameCell>, emptyCells: seq<GameCell>)

  /** SequenceAnalysis: the `metaData` of a line; an absent moves count is `None`. */
  datatype SequenceAnalysis = SequenceAnalysis(
    suggestToHold: bool,
    hasPlayerIn: bool,
    hasAiIn: bool,
    movesPlayerToWin: Option<int>,
    movesAIToWin: Option<int>)

  /** SequenceData: a line's split (`seq`) together with its analysis (`metaData`). */
  datatype SequenceState = SequenceState(sequence: SeqCells, metaData: SequenceAnalysis)

  /** BoardAnalysis: the analysed rows, columns and diagonals. */
  datatype Disposition = Disposition(
    rowsState: seq<SequenceState>,
    columnsState: seq<SequenceState>,
    diagonalsState: seq<SequenceState>)

  /** The keys of `moveGroup`, in the order the object literal inserts them. */
  datatype GroupKey = RowsState | ColumnsState | DiagonalsState

  /** One entry of `moveGroup`. */
  datatype Group = Group(key: GroupKey, states: seq<SequenceState>)

  /** BestMoveData: the best count and its line's free cells, for each side. */
  datatype BestMoveData = BestMoveData(
    bestStepsCountToWinPlayer: int,
    bestSeqForPlayer: seq<GameCell>,
    bestStepsCountToWinAI: int,
    bestSeqForAI: seq<GameCell>)

  /** The best count found so far for one side, with its line's free cells. */
  datatype Best = Best(count: int, cells: seq<GameCell>)

  // ---------------------------------------------------------------------
  // handleSequince
  // ---------------------------------------------------------------------

  /** The three tests `handleSequince` filters with: the status equals a mark, or
      it is neither of two marks. */
  datatype Test = Equals(value: CellStatus) | Neither(first: CellStatus, second: CellStatus)

  predicate Passes(keep: Test, status: CellStatus)
  {
    match keep
    case Equals(value) => status == value
    case Neither(first, second) => status != first && status != second
  }

  /** `line.filter((cell) => ...)` with one of the tests. */
  function Filter(line: seq<GameCell>, keep: Test): (r: seq<GameCell>)
    reads line
    ensures |r| <= |line|
  {
    if line == [] then []
    else (if Passes(keep, line[0].GetStatus()) then [line[0]] else []) + Filter(line[1..], keep)
  }

  /** The filtered list holds exactly the cells of the line whose status passes `keep`. */
  lemma {:induction false} FilterMembers(line: seq<GameCell>, keep: Test)
    ensures forall k :: 0 <= k < |Filter(line, keep)| ==>
      Filter(line, keep)[k] in line && Passes(keep, Filter(line, keep)[k].GetStatus())
    ensures forall k :: 0 <= k < |line| && Passes(keep, line[k].GetStatus()) ==> line[k] in Filter(line, keep)
  {
    if line != [] {
      FilterMembers(line[1..], keep);
      var head := if Passes(keep, line[0].GetStatus()) then [line[0]] else [];
      var rest := Filter(line[1..], keep);
      assert Filter(line, keep) == head + rest;
      assert forall k :: 0 < k < |line| ==> line[k] == line[1..][k - 1];
      assert forall c :: c in line[1..] ==> c in line;
    }
  }

  /** `sub` is `s` with some elements dropped, the rest in their order. */
  ghost predicate IsSubsequence(sub: seq<GameCell>, s: seq<GameCell>)
  {
    if sub == [] then true
    else if s == [] then false
    else (sub[0] == s[0] && IsSubsequence(sub[1..], s[1..])) || IsSubsequence(sub, s[1..])
  }

  /** Filtering keeps the line's order. */
  lemma {:induction false} FilterKeepsOrder(line: seq<GameCell>, keep: Test)
    ensures IsSubsequence(Filter(line, keep), line)
  {
    if line != [] {
      FilterKeepsOrder(line[1..], keep);
      var rest := Filter(line[1..], keep);
      if Passes(keep, line[0].GetStatus()) {
        assert Filter(line, keep) == [line[0]] + rest;
        assert ([line[0]] + rest)[1..] == rest;
      } else {
        assert Filter(line, keep) == rest;
      }
    }
  }

  /** `handleSequince`: the player's cells, the AI's cells and the cells holding neither mark. */
  function HandleSequence(line: seq<GameCell>, playerSym: PlayerSym, aiSym: PlayerSym): SeqCells
    reads line
  {
    SeqCells(Filter(line, Equals(playerSym)),
             Filter(line, Equals(aiSym)),
             Filter(line, Neither(aiSym, playerSym)))
  }

  /** Splitting a line whose first cell is `c`: `c` goes to the list its status picks. */
  lemma HandleSequenceFirst(line: seq<GameCell>, playerSym: PlayerSym, aiSym: PlayerSym)
    requires line != [] && playerSym != aiSym
    ensures var s := HandleSequence(line, playerSym, aiSym);
      var t := HandleSequence(line[1..], playerSym, aiSym);
      var c := line[0];
      s == if c.GetStatus() == playerSym then SeqCells([c] + t.playerCells, t.aiCells, t.emptyCells)
           else if c.GetStatus() == aiSym then SeqCells(t.playerCells, [c] + t.aiCells, t.emptyCells)
           else SeqCells(t.playerCells, t.aiCells, [c] + t.emptyCells)
  {
  }

  /** Adding a line's first cell to one of three lists that split the rest of the
      line gives three lists that split the whole line. */
  lemma SplitStep(line: seq<GameCell>, p: seq<GameCell>, a: seq<GameCell>, e: seq<GameCell>,
                  p': seq<GameCell>, a': seq<GameCell>, e': seq<GameCell>)
    requires line != []
    requires multiset(p) + multiset(a) + multiset(e) == multiset(line[1..])
    requires |p| + |a| + |e| == |line| - 1
    requires || (p' == [line[0]] + p && a' == a && e' == e)
             || (p' == p && a' == [line[0]] + a && e' == e)
             || (p' == p && a' == a && e' == [line[0]] + e)
    ensures multiset(p') + multiset(a') + multiset(e') == multiset(line)
    ensures |p'| + |a'| + |e'| == |line|
  {
    assert line == [line[0]] + line[1..];
  }

  /** With complementary marks the three lists split the line: together they hold
      each cell as often as the line does, and their lengths add up to the line's. */
  lemma {:induction false} HandleSequencePartitions(line: seq<GameCell>, playerSym: PlayerSym, aiSym: PlayerSym)
    requires playerSym != aiSym
    ensures var s := HandleSequence(line, playerSym, aiSym);
      && multiset(s.playerCells) + multiset(s.aiCells) + multiset(s.emptyCells) == multiset(line)
      && |s.playerCells| + |s.aiCells| + |s.emptyCells| == |line|
  {
    if line != [] {
      HandleSequencePartitions(line[1..], playerSym, aiSym);
      HandleSequenceFirst(line, playerSym, aiSym);
      var s := HandleSequence(line, playerSym, aiSym);
      var t := HandleSequence(line[1..], playerSym, aiSym);
      SplitStep(line, t.playerCells, t.aiCells, t.emptyCells, s.playerCells, s.aiCells, s.emptyCells);
    }
  }

  /** Each list keeps the line's order, and with complementary marks the third
      list holds exactly the empty cells of the line. */
  lemma HandleSequenceLists(line: seq<GameCell>, playerSym: PlayerSym, aiSym: PlayerSym)
    requires aiSym == Other(playerSym)
    ensures var s := HandleSequence(line, playerSym, aiSym);
      && IsSubsequence(s.playerCells, line)
      && IsSubsequence(s.aiCells, line)
      && IsSubsequence(s.emptyCells, line)
      && (forall k :: 0 <= k < |s.emptyCells| ==> s.emptyCells[k].GetStatus() == Empty)
      && (forall k :: 0 <= k < |line| && line[k].GetStatus() == Empty ==> line[k] in s.emptyCells)
  {
    FilterKeepsOrder(line, Equals(playerSym));
    FilterKeepsOrder(line, Equals(aiSym));
    FilterKeepsOrder(line, Neither(aiSym, playerSym));
    FilterMembers(line, Neither(aiSym, playerSym));
  }

  // ---------------------------------------------------------------------
  // handleGroup
  // ---------------------------------------------------------------------

  /** The `metaData` `handleGroup` computes for a line of `lineLength` cells. */
  function Analysis(lineLength: int, s: SeqCells): SequenceAnalysis
  {
    var hasPlayerIn := |s.playerCells| != 0;
    var hasAiIn := |s.aiCells| != 0;
    if hasPlayerIn && !hasAiIn then
      SequenceAnalysis(false, hasPlayerIn, hasAiIn, Some(lineLength - |s.playerCells|), None)
    else if hasAiIn && !hasPlayerIn then
      SequenceAnalysis(true, hasPlayerIn, hasAiIn, None, Some(lineLength - |s.aiCells|))
    else
      SequenceAnalysis(true, hasPlayerIn, hasAiIn, None, None)
  }

  /** The entry `handleGroup` pushes for one line. */
  function SequenceStateOf(line: seq<GameCell>, playerSym: PlayerSym, aiSym: PlayerSym): SequenceState
    reads line
  {
    var s := HandleSequence(line, playerSym, aiSym);
    SequenceState(s, Analysis(|line|, s))
  }

  /** Some cell of `line` has status `value`. */
  predicate Holds(line: seq<GameCell>, value: CellStatus)
    reads line
  {
    exists k :: 0 <= k < |line| && line[k].GetStatus() == value
  }

  /** The cells of `line` with status `value` make a non-empty list exactly when
      the line holds `value`. */
  lemma FilterNonEmptyIffHolds(line: seq<GameCell>, value: CellStatus)
    ensures |Filter(line, Equals(value))| != 0 <==> Holds(line, value)
  {
    FilterMembers(line, Equals(value));
    if Holds(line, value) {
      var k :| 0 <= k < |line| && line[k].GetStatus() == value;
      assert line[k] in Filter(line, Equals(value));
    }
    if |Filter(line, Equals(value))| != 0 {
      var c := Filter(line, Equals(value))[0];
      assert c in line && c.GetStatus() == value;
      var k :| 0 <= k < |line| && line[k] == c;
    }
  }

  /** What the analysis of a line means: a moves count appears only on a line that
      one side holds alone, and it is the number of the line's cells that side lacks,
      which are its empty cells; mixed and all-empty lines get no count; the line
      is "not to hold" exactly when only the player is in it. */
  lemma AnalysisMeaning(line: seq<GameCell>, playerSym: PlayerSym, aiSym: PlayerSym)
    requires aiSym == Other(playerSym)
    ensures var st := SequenceStateOf(line, playerSym, aiSym);
      var m := st.metaData;
      && (m.hasPlayerIn <==> Holds(line, playerSym))
      && (m.hasAiIn <==> Holds(line, aiSym))
      && (m.movesPlayerToWin.Some? <==> Holds(line, playerSym) && !Holds(line, aiSym))
      && (m.movesAIToWin.Some? <==> Holds(line, aiSym) && !Holds(line, playerSym))
      && (m.movesPlayerToWin.Some? ==>
            m.movesPlayerToWin.value == |line| - |st.sequence.playerCells| == |st.sequence.emptyCells|)
      && (m.movesAIToWin.Some? ==>
            m.movesAIToWin.value == |line| - |st.sequence.aiCells| == |st.sequence.emptyCells|)
      && (!m.suggestToHold <==> Holds(line, playerSym) && !Holds(line, aiSym))
  {
    HandleSequencePartitions(line, playerSym, aiSym);
    FilterNonEmptyIffHolds(line, playerSym);
    FilterNonEmptyIffHolds(line, aiSym);
  }

  /** `handleGroup` as a value: one entry per line, in the group's order. */
  function AnalyzeGroup(group: seq<seq<GameCell>>, playerSym: PlayerSym, aiSym: PlayerSym): (r: seq<SequenceState>)
    reads CellsIn(group)
    ensures |r| == |group|
    ensures forall i :: 0 <= i < |group| ==> r[i] == SequenceStateOf(group[i], playerSym, aiSym)
  {
    if group == [] then []
    else [SequenceStateOf(group[0], playerSym, aiSym)] + AnalyzeGroup(group[1..], playerSym, aiSym)
  }

  /** `handleGroup`: the metadata is built up field by field, as the source does. */
  method HandleGroup(group: seq<seq<GameCell>>, playerSym: PlayerSym, aiSym: PlayerSym)
    returns (result: seq<SequenceState>)
    ensures result == AnalyzeGroup(group, playerSym, aiSym)
    // It only reads the cells: the analysis of any group is what it was.
    ensures forall g :: old(allocated(g)) ==> AnalyzeGroup(g, playerSym, aiSym) == old(AnalyzeGroup(g, playerSym, aiSym))
  {
    result := [];
    var i := 0;
    while i < |group|
      invariant 0 <= i <= |group| && |result| == i
      invariant forall k :: 0 <= k < i ==> result[k] == SequenceStateOf(group[k], playerSym, aiSym)
    {
      var groupSeq := group[i];
      var s := HandleSequence(groupSeq, playerSym, aiSym);
      var suggestToHold := true;
      var hasPlayerIn := |s.playerCells| != 0;
      var hasAiIn := |s.aiCells| != 0;
      var movesPlayerToWin: Option<int> := None;
      var movesAIToWin: Option<int> := None;
      if hasPlayerIn && !hasAiIn {
        suggestToHold := false;
        movesPlayerToWin := Some(|groupSeq| - |s.playerCells|);
      } else if hasAiIn && !hasPlayerIn {
        movesAIToWin := Some(|groupSeq| - |s.aiCells|);
      }
      result := result + [SequenceState(s, SequenceAnalysis(suggestToHold, hasPlayerIn, hasAiIn, movesPlayerToWin, movesAIToWin))];
      i := i + 1;
    }
  }

  // ---------------------------------------------------------------------
  // checkStates, checkState, selectTheState
  // ---------------------------------------------------------------------

  /** `checkStates` as a value: the rows, columns and diagonals of the board, analysed. */
  function DispositionOf(cells: seq<seq<GameCell>>, playerSym: PlayerSym, aiSym: PlayerSym): Disposition
    requires IsBoard(cells)
    reads CellsIn(cells)
  {
    assert IsRectangular(cells);
    Disposition(AnalyzeGroup(cells, playerSym, aiSym),
                AnalyzeGroup(Transpose(cells), playerSym, aiSym),
                AnalyzeGroup(Diagonals(cells), playerSym, aiSym))
  }

  /** `checkStates`: the board's three groups of lines, each analysed by `handleGroup`. */
  method CheckStates(board: GameBoard, playerSym: PlayerSym, aiSym: PlayerSym) returns (d: Disposition)
    requires board.Valid()
    ensures d == DispositionOf(board.cells, playerSym, aiSym)
  {
    var boardState := board.HandleBoardState();
    d := HandleGroups(boardState, playerSym, aiSym);
  }

  /** The three `handleGroup` calls of `checkStates`, on the rows, the columns and the
      diagonals in that order. */
  method HandleGroups(state: BoardState, playerSym: PlayerSym, aiSym: PlayerSym) returns (d: Disposition)
    ensures d == Disposition(AnalyzeGroup(state.rows, playerSym, aiSym),
                             AnalyzeGroup(state.columns, playerSym, aiSym),
                             AnalyzeGroup(state.diagonals, playerSym, aiSym))
  {
    var rowsState := HandleGroup(state.rows, playerSym, aiSym);
    var columnsState := HandleGroup(state.columns, playerSym, aiSym);
    var diagonalsState := HandleGroup(state.diagonals, playerSym, aiSym);
    d := Disposition(rowsState, columnsState, diagonalsState);
  }

  /** `checkState`: `state.filter(Boolean)`, which copies the entries that are truthy;
      every entry is an object, so each one is copied. */
  function CheckState(state: seq<SequenceState>): seq<SequenceState>
  {
    if state == [] then [] else [state[0]] + CheckState(state[1..])
  }

  /** `filter(Boolean)` drops no entry. */
  lemma {:induction false} CheckStateKeepsAll(state: seq<SequenceState>)
    ensures CheckState(state) == state
  {
    if state != [] {
      CheckStateKeepsAll(state[1..]);
      assert state == [state[0]] + state[1..];
    }
  }

  /** `selectTheState`: the three filtered groups under the keys rows, columns, diagonals,
      in that order, each holding every entry of its group. */
  function SelectTheState(disposition: Disposition): (moveGroup: seq<Group>)
    ensures moveGroup == [Group(RowsState, disposition.rowsState),
                          Group(ColumnsState, disposition.columnsState),
                          Group(DiagonalsState, disposition.diagonalsState)]
  {
    CheckStateKeepsAll(disposition.rowsState);
    CheckStateKeepsAll(disposition.columnsState);
    CheckStateKeepsAll(disposition.diagonalsState);
    [Group(RowsState, CheckState(disposition.rowsState)),
     Group(ColumnsState, CheckState(disposition.columnsState)),
     Group(DiagonalsState, CheckState(disposition.diagonalsState))]
  }

  // ---------------------------------------------------------------------
  // The deletion loop of move
  // ---------------------------------------------------------------------

  /** The groups that are left when every group without entries is deleted. */
  function NonEmptyGroups(groups: seq<Group>): seq<Group>
  {
    if groups == [] then []
    else NonEmptyGroups(groups[..|groups| - 1])
         + (if |groups[|groups| - 1].states| != 0 then [groups[|groups| - 1]] else [])
  }

  /** Visiting one more key either keeps its group or drops it. */
  lemma NonEmptyGroupsStep(groups: seq<Group>, k: int)
    requires 0 <= k < |groups|
    ensures NonEmptyGroups(groups[..k + 1])
      == NonEmptyGroups(groups[..k]) + (if |groups[k].states| != 0 then [groups[k]] else [])
  {
    assert groups[..k + 1][..k] == groups[..k];
  }

  /** The list `kept + rest` seen at the first element of `rest`: that element, the
      list without it, and the list with it moved into the kept part. */
  lemma SplitAt(kept: seq<Group>, rest: seq<Group>)
    requires |rest| > 0
    ensures var r := kept + rest;
      && r[|kept|] == rest[0]
      && r[..|kept|] + r[|kept| + 1..] == kept + rest[1..]
      && r == (kept + [rest[0]]) + rest[1..]
  {
    var r := kept + rest;
    assert r[..|kept|] == kept;
    assert r[|kept| + 1..] == rest[1..];
  }

  /** The loop of `move` that deletes every key whose group is empty. */
  method DeleteEmptyGroups(moveGroup: seq<Group>) returns (remaining: seq<Group>)
    ensures remaining == NonEmptyGroups(moveGroup)
  {
    remaining := moveGroup;
    ghost var kept: seq<Group> := [];
    var i := 0;
    var k := 0;
    while k < |moveGroup|
      invariant 0 <= k <= |moveGroup|
      invariant kept == NonEmptyGroups(moveGroup[..k])
      invariant i == |kept| && remaining == kept + moveGroup[k..]
    {
      NonEmptyGroupsStep(moveGroup, k);
      SplitAt(kept, moveGroup[k..]);
      assert moveGroup[k..][1..] == moveGroup[k + 1..];
      if |remaining[i].states| == 0 {
        remaining := remaining[..i] + remaining[i + 1..];
      } else {
        kept := kept + [moveGroup[k]];
        i := i + 1;
      }
      k := k + 1;
    }
    assert moveGroup[..k] == moveGroup;
  }

  /** The entries of the groups, one group after the other. */
  function Flat(groups: seq<Group>): seq<SequenceState>
  {
    if groups == [] then [] else Flat(groups[..|groups| - 1]) + groups[|groups| - 1].states
  }

  /** Deleting the empty groups never changes the entries `selectTheSeq` scans. */
  lemma {:induction false} DeletionKeepsEntries(groups: seq<Group>)
    ensures Flat(NonEmptyGroups(groups)) == Flat(groups)
  {
    if groups != [] {
      var init := groups[..|groups| - 1];
      var last := groups[|groups| - 1];
      DeletionKeepsEntries(init);
      if |last.states| != 0 {
        var kept := NonEmptyGroups(init) + [last];
        assert NonEmptyGroups(groups) == kept;
        assert kept[..|kept| - 1] == NonEmptyGroups(init);
        assert kept[|kept| - 1] == last;
      } else {
        assert NonEmptyGroups(groups) == NonEmptyGroups(init);
      }
    }
  }

  /** When no group is empty, nothing is deleted. */
  lemma {:induction false} NothingDeletedFromNonEmpty(groups: seq<Group>)
    requires forall i :: 0 <= i < |groups| ==> |groups[i].states| != 0
    ensures NonEmptyGroups(groups) == groups
  {
    if groups != [] {
      NothingDeletedFromNonEmpty(groups[..|groups| - 1]);
      assert groups == groups[..|groups| - 1] + [groups[|groups| - 1]];
    }
  }

  /** On a board every group has entries (n rows, n columns, 2 diagonals), so the
      deletion loop of `move` deletes nothing. */
  lemma NoGroupDeletedOnBoard(cells: seq<seq<GameCell>>, playerSym: PlayerSym, aiSym: PlayerSym)
    requires IsBoard(cells)
    ensures var moveGroup := SelectTheState(DispositionOf(cells, playerSym, aiSym));
      NonEmptyGroups(moveGroup) == moveGroup
  {
    NothingDeletedFromNonEmpty(SelectTheState(DispositionOf(cells, playerSym, aiSym)));
  }

  // ---------------------------------------------------------------------
  // selectTheSeq
  // ---------------------------------------------------------------------

  /** The moves count of an entry for one side. */
  function MovesFor(st: SequenceState, side: Player): Option<int>
  {
    if side == Player then st.metaData.movesPlayerToWin else st.metaData.movesAIToWin
  }

  /** The count is present and truthy, that is, not 0. */
  predicate Live(st: SequenceState, side: Player)
  {
    MovesFor(st, side).Some? && MovesFor(st, side).value != 0
  }

  /** One step of the scan for one side: a truthy count replaces the best when there
      is none yet (-1) or when it is strictly smaller. */
  function Improve(best: Best, st: SequenceState, side: Player): Best
  {
    if Live(st, side) && (best.count == -1 || MovesFor(st, side).value < best.count)
    then Best(MovesFor(st, side).value, st.sequence.emptyCells)
    else best
  }

  /** The scan over `entries`, in order, starting from no best (-1, no cells). */
  function BestOf(entries: seq<SequenceState>, side: Player): Best
  {
    if entries == [] then Best(-1, [])
    else Improve(BestOf(entries[..|entries| - 1], side), entries[|entries| - 1], side)
  }

  /** Scanning one more entry is one more step. */
  lemma BestOfAppend(entries: seq<SequenceState>, st: SequenceState)
    ensures BestOf(entries + [st], Player) == Improve(BestOf(entries, Player), st, Player)
    ensures BestOf(entries + [st], AI) == Improve(BestOf(entries, AI), st, AI)
  {
    assert (entries + [st])[..|entries|] == entries;
  }

  /** `selectTheSeq` as a value: both sides' scans over the groups' entries. */
  function BestMoveOf(moveGroup: seq<Group>): BestMoveData
  {
    var forPlayer := BestOf(Flat(moveGroup), Player);
    var forAI := BestOf(Flat(moveGroup), AI);
    BestMoveData(forPlayer.count, forPlayer.cells, forAI.count, forAI.cells)
  }

  /** What the scan selects, for counts that are never negative: -1 exactly when no
      entry has a truthy count; otherwise the smallest truthy count, taken from the
      first entry that has it (strict `<`: a tie keeps the earlier line), with that
      entry's empty cells. */
  lemma {:induction false} BestOfMeaning(entries: seq<SequenceState>, side: Player)
    requires forall i :: 0 <= i < |entries| ==> MovesFor(entries[i], side).None? || MovesFor(entries[i], side).value >= 0
    ensures var r := BestOf(entries, side);
      && (r.count == -1 <==> forall i :: 0 <= i < |entries| ==> !Live(entries[i], side))
      && (r.count == -1 ==> r.cells == [])
      && (r.count == -1 || r.count >= 1)
      && (r.count != -1 ==>
            exists i :: && 0 <= i < |entries| && Live(entries[i], side)
                        && r.count == MovesFor(entries[i], side).value
                        && r.cells == entries[i].sequence.emptyCells
                        && (forall j :: 0 <= j < i && Live(entries[j], side) ==> MovesFor(entries[j], side).value > r.count))
      && (forall i :: 0 <= i < |entries| && Live(entries[i], side) ==> r.count <= MovesFor(entries[i], side).value)
  {
    if entries != [] {
      var n := |entries|;
      var init := entries[..n - 1];
      var last := entries[n - 1];
      assert forall i :: 0 <= i < n - 1 ==> init[i] == entries[i];
      BestOfMeaning(init, side);
      var prev := BestOf(init, side);
      var r := BestOf(entries, side);
      if r != prev {
        assert r == Best(MovesFor(last, side).value, last.sequence.emptyCells);
        assert Live(entries[n - 1], side);
      } else if r.count != -1 {
        var i :| && 0 <= i < |init| && Live(init[i], side)
                 && prev.count == MovesFor(init[i], side).value
                 && prev.cells == init[i].sequence.emptyCells
                 && (forall j :: 0 <= j < i && Live(init[j], side) ==> MovesFor(init[j], side).value > prev.count);
        assert Live(entries[i], side);
      }
    }
  }

  /** The `forEach` callback of `selectTheSeq`: one entry updates each side's best. */
  method ConsiderRange(range: SequenceState, countPlayer: int, seqPlayer: seq<GameCell>, countAI: int, seqAI: seq<GameCell>)
    returns (bestStepsCountToWinPlayer: int, bestSeqForPlayer: seq<GameCell>, bestStepsCountToWinAI: int, bestSeqForAI: seq<GameCell>)
    ensures Best(bestStepsCountToWinPlayer, bestSeqForPlayer) == Improve(Best(countPlayer, seqPlayer), range, Player)
    ensures Best(bestStepsCountToWinAI, bestSeqForAI) == Improve(Best(countAI, seqAI), range, AI)
  {
    bestStepsCountToWinPlayer, bestSeqForPlayer := countPlayer, seqPlayer;
    bestStepsCountToWinAI, bestSeqForAI := countAI, seqAI;
    // The test `range.seq?.seqEmptyCells` is an array, which is always truthy.
    if range.metaData.movesPlayerToWin.Some? && range.metaData.movesPlayerToWin.value != 0 {
      if bestStepsCountToWinPlayer == -1 || range.metaData.movesPlayerToWin.value < bestStepsCountToWinPlayer {
        bestStepsCountToWinPlayer := range.metaData.movesPlayerToWin.value;
        bestSeqForPlayer := range.sequence.emptyCells;
      }
    }
    if range.metaData.movesAIToWin.Some? && range.metaData.movesAIToWin.value != 0 {
      if bestStepsCountToWinAI == -1 || range.metaData.movesAIToWin.value < bestStepsCountToWinAI {
        bestStepsCountToWinAI := range.metaData.movesAIToWin.value;
        bestSeqForAI := range.sequence.emptyCells;
      }
    }
  }

  /** The `forEach` over one group's entries: continuing a scan over `scanned`, the
      bests become those of the scan over `scanned` and then `ranges`. */
  method ScanGroup(ghost scanned: seq<SequenceState>, ranges: seq<SequenceState>,
                   countPlayer: int, seqPlayer: seq<GameCell>, countAI: int, seqAI: seq<GameCell>)
    returns (bestStepsCountToWinPlayer: int, bestSeqForPlayer: seq<GameCell>, bestStepsCountToWinAI: int, bestSeqForAI: seq<GameCell>)
    requires Best(countPlayer, seqPlayer) == BestOf(scanned, Player)
    requires Best(countAI, seqAI) == BestOf(scanned, AI)
    ensures Best(bestStepsCountToWinPlayer, bestSeqForPlayer) == BestOf(scanned + ranges, Player)
    ensures Best(bestStepsCountToWinAI, bestSeqForAI) == BestOf(scanned + ranges, AI)
  {
    bestStepsCountToWinPlayer, bestSeqForPlayer := countPlayer, seqPlayer;
    bestStepsCountToWinAI, bestSeqForAI := countAI, seqAI;
    var k := 0;
    ghost var seen := scanned;
    while k < |ranges|
      invariant 0 <= k <= |ranges|
      invariant seen == scanned + ranges[..k]
      invariant Best(bestStepsCountToWinPlayer, bestSeqForPlayer) == BestOf(seen, Player)
      invariant Best(bestStepsCountToWinAI, bestSeqForAI) == BestOf(seen, AI)
    {
      var range := ranges[k];
      bestStepsCountToWinPlayer, bestSeqForPlayer, bestStepsCountToWinAI, bestSeqForAI :=
        ConsiderRange(range, bestStepsCountToWinPlayer, bestSeqForPlayer, bestStepsCountToWinAI, bestSeqForAI);
      BestOfAppend(seen, range);
      assert ranges[..k + 1] == ranges[..k] + [range];
      seen := seen + [range];
      k := k + 1;
    }
    assert ranges[..k] == ranges;
  }

  /** `selectTheSeq`: one pass over the groups in key order and over each group's
      entries, updating both sides' best count and line. */
  method SelectTheSeq(moveGroup: seq<Group>) returns (best: BestMoveData)
    ensures best == BestMoveOf(moveGroup)
  {
    var bestStepsCountToWinAI := -1;
    var bestSeqForAI: seq<GameCell> := [];
    var bestStepsCountToWinPlayer := -1;
    var bestSeqForPlayer: seq<GameCell> := [];
    var g := 0;
    while g < |moveGroup|
      invariant 0 <= g <= |moveGroup|
      invariant Best(bestStepsCountToWinPlayer, bestSeqForPlayer) == BestOf(Flat(moveGroup[..g]), Player)
      invariant Best(bestStepsCountToWinAI, bestSeqForAI) == BestOf(Flat(moveGroup[..g]), AI)
    {
      assert moveGroup[..g + 1][..g] == moveGroup[..g];
      assert Flat(moveGroup[..g + 1]) == Flat(moveGroup[..g]) + moveGroup[g].states;
      bestStepsCountToWinPlayer, bestSeqForPlayer, bestStepsCountToWinAI, bestSeqForAI :=
        ScanGroup(Flat(moveGroup[..g]), moveGroup[g].states,
                  bestStepsCountToWinPlayer, bestSeqForPlayer, bestStepsCountToWinAI, bestSeqForAI);
      g := g + 1;
    }
    assert moveGroup[..g] == moveGroup;
    best := BestMoveData(bestStepsCountToWinPlayer, bestSeqForPlayer, bestStepsCountToWinAI, bestSeqForAI);
  }

  // ---------------------------------------------------------------------
  // getRandomEmptyCell and selectTheCell
  // ---------------------------------------------------------------------

  /** `getRandomEmptyCell`: `cells.find(...)`, the first empty cell of the flat
      board list, or `false` (`None`) when there is none. It is not random. */
  function GetRandomEmptyCell(cells: seq<GameCell>): (r: Option<GameCell>)
    reads cells
    ensures r.None? ==> forall k :: 0 <= k < |cells| ==> cells[k].GetStatus() != Empty
    ensures r.Some? ==>
      exists k :: && 0 <= k < |cells| && r.value == cells[k] && cells[k].GetStatus() == Empty
                  && forall j :: 0 <= j < k ==> cells[j].GetStatus() != Empty
  {
    if cells == [] then None
    else if cells[0].GetStatus() == Empty then Some(cells[0])
    else
      var r := GetRandomEmptyCell(cells[1..]);
      assert forall k :: 0 < k < |cells| ==> cells[k] == cells[1..][k - 1];
      r
  }

  /** `randomInteger(lo, hi)` returns an integer between `lo` and `hi`, both included. */
  ghost predicate RandomIntegerInRange(randomInteger: (int, int) -> int)
  {
    forall lo, hi :: lo <= hi ==> lo <= randomInteger(lo, hi) <= hi
  }

  /** Indexing a JavaScript array: out of range gives `undefined` (`None`). */
  function Pick(cells: seq<GameCell>, index: int): (r: Option<GameCell>)
    ensures r.Some? <==> 0 <= index < |cells|
    ensures r.Some? ==> r.value == cells[index]
  {
    if 0 <= index < |cells| then Some(cells[index]) else None
  }

  /** The cell taken from the best line of one side: its only cell, or the one at
      the index `randomInteger` chooses. */
  function PickFromLine(cells: seq<GameCell>, randomInteger: (int, int) -> int): (r: Option<GameCell>)
    ensures r.Some? ==> r.value in cells
    ensures RandomIntegerInRange(randomInteger) && |cells| >= 1 ==> r.Some?
  {
    if |cells| == 1 then Some(cells[0]) else Pick(cells, randomInteger(0, |cells| - 1))
  }

  /** `selectTheCell`, with the board given as the flat list `getRandomEmptyCell` expects.
      `P === A || P > A` is `P >= A`; the other branch tests `P < A`, so the final
      `return` of the source is never reached. */
  function SelectTheCell(best: BestMoveData, randomInteger: (int, int) -> int, cells: seq<GameCell>): (r: Option<GameCell>)
    reads cells
    // As soon as one side has no line (-1), the first empty cell is taken, even when the
    // other side has a line: a lone threat is ignored.
    ensures best.bestStepsCountToWinPlayer >= -1 && best.bestStepsCountToWinAI >= -1
            && (best.bestStepsCountToWinPlayer == -1 || best.bestStepsCountToWinAI == -1)
            ==> r == GetRandomEmptyCell(cells)
    // With both counts at least 1: a tie or a smaller AI count follows the AI's line,
    // a smaller player count blocks the player's line.
    ensures best.bestStepsCountToWinAI >= 1 && best.bestStepsCountToWinPlayer >= best.bestStepsCountToWinAI
            ==> (r.Some? ==> r.value in best.bestSeqForAI)
                && (RandomIntegerInRange(randomInteger) && |best.bestSeqForAI| >= 1 ==> r.Some?)
    ensures best.bestStepsCountToWinPlayer >= 1 && best.bestStepsCountToWinPlayer < best.bestStepsCountToWinAI
            ==> (r.Some? ==> r.value in best.bestSeqForPlayer)
                && (RandomIntegerInRange(randomInteger) && |best.bestSeqForPlayer| >= 1 ==> r.Some?)
  {
    if best.bestStepsCountToWinPlayer >= best.bestStepsCountToWinAI then
      if best.bestStepsCountToWinAI == -1 then GetRandomEmptyCell(cells)
      else PickFromLine(best.bestSeqForAI, randomInteger)
    else
      if best.bestStepsCountToWinPlayer == -1 then GetRandomEmptyCell(cells)
      else PickFromLine(best.bestSeqForPlayer, randomInteger)
  }

  // ---------------------------------------------------------------------
  // move
  // ---------------------------------------------------------------------

  /** The cell `move` marks on `cells`, if any. */
  function ChooseTarget(cells: seq<seq<GameCell>>, playerSym: PlayerSym, aiSym: PlayerSym,
                        randomInteger: (int, int) -> int): Option<GameCell>
    requires IsBoard(cells)
    reads CellsIn(cells)
  {
    FlattenMembers(cells);
    SelectTheCell(BestMoveOf(MoveGroupOf(cells, playerSym, aiSym)), randomInteger, Flatten(cells))
  }

  /** The moveGroup `move` hands to `selectTheSeq` on `cells`. */
  function MoveGroupOf(cells: seq<seq<GameCell>>, playerSym: PlayerSym, aiSym: PlayerSym): seq<Group>
    requires IsBoard(cells)
    reads CellsIn(cells)
  {
    NonEmptyGroups(SelectTheState(DispositionOf(cells, playerSym, aiSym)))
  }

  /** The entry's empty cells are empty cells of `cells`, and its counts are the
      number of those cells. */
  ghost predicate SoundEntry(st: SequenceState, cells: seq<seq<GameCell>>)
    reads CellsIn(cells)
  {
    && (forall k :: 0 <= k < |st.sequence.emptyCells| ==>
          st.sequence.emptyCells[k] in CellsIn(cells) && st.sequence.emptyCells[k].GetStatus() == Empty)
    && (st.metaData.movesPlayerToWin.Some? ==> st.metaData.movesPlayerToWin.value == |st.sequence.emptyCells|)
    && (st.metaData.movesAIToWin.Some? ==> st.metaData.movesAIToWin.value == |st.sequence.emptyCells|)
  }

  /** Every line of a group drawn from the board yields a sound entry. */
  lemma AnalyzeGroupSound(group: seq<seq<GameCell>>, cells: seq<seq<GameCell>>, playerSym: PlayerSym, aiSym: PlayerSym)
    requires aiSym == Other(playerSym)
    requires CellsIn(group) <= CellsIn(cells)
    ensures forall i :: 0 <= i < |group| ==> SoundEntry(AnalyzeGroup(group, playerSym, aiSym)[i], cells)
  {
    forall i | 0 <= i < |group| ensures SoundEntry(AnalyzeGroup(group, playerSym, aiSym)[i], cells) {
      AnalysisMeaning(group[i], playerSym, aiSym);
      HandleSequenceLists(group[i], playerSym, aiSym);
      FilterMembers(group[i], Neither(aiSym, playerSym));
      var st := SequenceStateOf(group[i], playerSym, aiSym);
      forall k | 0 <= k < |st.sequence.emptyCells| ensures st.sequence.emptyCells[k] in CellsIn(cells) {
        assert st.sequence.emptyCells[k] in group[i];
      }
    }
  }

  /** The entries `selectTheSeq` scans are the rows', then the columns', then the
      diagonals' entries. */
  lemma ScannedEntries(d: Disposition)
    ensures Flat(NonEmptyGroups(SelectTheState(d))) == d.rowsState + d.columnsState + d.diagonalsState
  {
    var moveGroup := SelectTheState(d);
    DeletionKeepsEntries(moveGroup);
    assert moveGroup[..2][..1] == moveGroup[..1] && moveGroup[..3] == moveGroup;
    assert Flat(moveGroup[..1]) == d.rowsState;
  }

  /** Soundness of each of three entry lists carries over to the three together. */
  lemma SoundConcat(a: seq<SequenceState>, b: seq<SequenceState>, c: seq<SequenceState>, cells: seq<seq<GameCell>>)
    requires forall i :: 0 <= i < |a| ==> SoundEntry(a[i], cells)
    requires forall i :: 0 <= i < |b| ==> SoundEntry(b[i], cells)
    requires forall i :: 0 <= i < |c| ==> SoundEntry(c[i], cells)
    ensures forall i :: 0 <= i < |a + b + c| ==> SoundEntry((a + b + c)[i], cells)
  {
    forall i | 0 <= i < |a + b + c| ensures SoundEntry((a + b + c)[i], cells) {
      if i < |a| {
        assert (a + b + c)[i] == a[i];
      } else if i < |a| + |b| {
        assert (a + b + c)[i] == b[i - |a|];
      } else {
        assert (a + b + c)[i] == c[i - |a| - |b|];
      }
    }
  }

  /** Every entry `selectTheSeq` scans on a board is sound. */
  lemma EntriesSound(cells: seq<seq<GameCell>>, playerSym: PlayerSym, aiSym: PlayerSym)
    requires IsBoard(cells) && aiSym == Other(playerSym)
    ensures forall i :: 0 <= i < |Flat(MoveGroupOf(cells, playerSym, aiSym))| ==>
      SoundEntry(Flat(MoveGroupOf(cells, playerSym, aiSym))[i], cells)
  {
    assert IsRectangular(cells);
    var d := DispositionOf(cells, playerSym, aiSym);
    AnalyzeGroupSound(cells, cells, playerSym, aiSym);
    AnalyzeGroupSound(Transpose(cells), cells, playerSym, aiSym);
    AnalyzeGroupSound(Diagonals(cells), cells, playerSym, aiSym);
    ScannedEntries(d);
    SoundConcat(d.rowsState, d.columnsState, d.diagonalsState, cells);
  }

  /** With sound entries, the selected line of either side is empty (count -1) or a
      line of at least one empty board cell, as many as the count says. */
  lemma BestSound(entries: seq<SequenceState>, cells: seq<seq<GameCell>>, side: Player)
    requires forall i :: 0 <= i < |entries| ==> SoundEntry(entries[i], cells)
    ensures var r := BestOf(entries, side);
      && (r.count == -1 || r.count >= 1)
      && (r.count != -1 ==> |r.cells| == r.count)
      && (forall k :: 0 <= k < |r.cells| ==> r.cells[k] in CellsIn(cells) && r.cells[k].GetStatus() == Empty)
  {
    BestOfMeaning(entries, side);
    var r := BestOf(entries, side);
    if r.count != -1 {
      var i :| 0 <= i < |entries| && Live(entries[i], side)
               && r.count == MovesFor(entries[i], side).value && r.cells == entries[i].sequence.emptyCells;
      assert SoundEntry(entries[i], cells);
    }
  }

  /** With complementary marks, the AI's target is an empty cell of the board; and when
      `randomInteger` keeps to its range, there is a target exactly when the board has
      an empty cell. */
  lemma ChooseTargetSound(cells: seq<seq<GameCell>>, playerSym: PlayerSym, aiSym: PlayerSym,
                          randomInteger: (int, int) -> int)
    requires IsBoard(cells) && aiSym == Other(playerSym)
    ensures var t := ChooseTarget(cells, playerSym, aiSym, randomInteger);
      && (t.Some? ==> t.value in CellsIn(cells) && t.value.GetStatus() == Empty)
      && (RandomIntegerInRange(randomInteger) ==>
            (t.Some? <==> HasEmptyCell(cells)))
  {
    EntriesSound(cells, playerSym, aiSym);
    var entries := Flat(MoveGroupOf(cells, playerSym, aiSym));
    BestSound(entries, cells, Player);
    BestSound(entries, cells, AI);
    FlattenMembers(cells);
    FlatEmptyIsBoardEmpty(cells);
    var t := ChooseTarget(cells, playerSym, aiSym, randomInteger);
    var flat := Flatten(cells);
    if t.Some? && t == GetRandomEmptyCell(flat) {
      var k :| 0 <= k < |flat| && t.value == flat[k] && flat[k].GetStatus() == Empty;
      assert flat[k] in flat;
    }
  }

  /** The analysis part of `move`: everything up to the choice of the target cell.
      Only reads the board. */
  method SelectTarget(board: GameBoard, status: GameStatus, randomInteger: (int, int) -> int)
    returns (targetCell: Option<GameCell>)
    requires board.Valid()
    ensures targetCell == ChooseTarget(board.cells, status.playerSym, status.aiSym, randomInteger)
  {
    var disposition := CheckStates(board, status.playerSym, status.aiSym);
    label analysed:
    var moveGroup := SelectTheState(disposition);
    moveGroup := DeleteEmptyGroups(moveGroup);
    var bestPlayersMoveData := SelectTheSeq(moveGroup);
    assert unchanged@analysed(board.Cells());
    assert disposition == DispositionOf(board.cells, status.playerSym, status.aiSym);
    FlattenMembers(board.cells);
    targetCell := SelectTheCell(bestPlayersMoveData, randomInteger, Flatten(board.cells));
  }

  /** `move`: the target cell, if there is one, gets the AI's mark. At most one cell
      changes: the target, which was empty; when `randomInteger` keeps to its range,
      a cell changes exactly when the board had an empty cell. */
  method Move(board: GameBoard, status: GameStatus, randomInteger: (int, int) -> int)
    returns (targetCell: Option<GameCell>)
    requires board.Valid() && status.Valid()
    modifies board.Cells()
    ensures targetCell == old(ChooseTarget(board.cells, status.playerSym, status.aiSym, randomInteger))
    ensures targetCell.Some? ==> targetCell.value in board.Cells() && old(targetCell.value.status) == Empty
    ensures RandomIntegerInRange(randomInteger) ==> (targetCell.Some? <==> old(HasEmptyCell(board.cells)))
    ensures forall c :: c in board.Cells() ==>
      c.status == (if targetCell == Some(c) then status.aiSym else old(c.status))
  {
    ghost var expected := ChooseTarget(board.cells, status.playerSym, status.aiSym, randomInteger);
    ChooseTargetSound(board.cells, status.playerSym, status.aiSym, randomInteger);
    targetCell := SelectTarget(board, status, randomInteger);
    assert unchanged(board.Cells());
    assert targetCell == expected;
    if targetCell.Some? {
      targetCell.value.SetStatus(status.aiSym);
    }
  }
}
