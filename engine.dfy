/**
 * The per-game state machine: a GameEngine owns a 3x3 board, updated in
 * place, and the lifecycle state. Players join with AddPlayer and move
 * with ExecuteMove; after every move the engine looks for a full line
 * (rows, then columns, then the two diagonals) and then for a full board.
 *
 * Every public method keeps the invariant Valid(): the board is 3x3 and
 * the state is consistent with its cells in the sense of
 * Rules.Consistent. ExecuteMove is proved against Rules.Move.
 */
module Engine {
  import opened Rules

  class GameEngine {
    /** Opaque label of the game, fixed at construction. */
    const gameId: string
    /** board[row, column] is 0 when empty, else the id of the player who took it. */
    const board: array2<int>
    var state: GameState

    /** The board has the fixed 3x3 shape. */
    predicate HasShape() {
      board.Length0 == BoardRows && board.Length1 == BoardColumns
    }

    /** The board as nine cells in row-major order: cell id 3 * row + column. */
    ghost function Cells(): (b: seq<int>)
      reads board
      requires HasShape()
      ensures |b| == CellCount
      ensures forall row, column :: 0 <= row < 3 && 0 <= column < 3 ==> b[3 * row + column] == board[row, column]
    {
      [board[0, 0], board[0, 1], board[0, 2],
       board[1, 0], board[1, 1], board[1, 2],
       board[2, 0], board[2, 1], board[2, 2]]
    }

    /** The object invariant. */
    ghost predicate Valid()
      reads this, board
    {
      HasShape() && Consistent(state, Cells())
    }

    /** A new game: empty board, no player has joined. */
    constructor (gameId: string)
      ensures Valid() && fresh(board)
      ensures this.gameId == gameId
      ensures state == New && Cells() == EmptyBoard
    {
      this.gameId := gameId;
      board := new int[BoardRows, BoardColumns]((row, column) => Empty);
      state := New;
      new;
      EmptyBoardConsistent();
    }

    /**
     * Registers the next player: player 1 in a new game, player 2 while
     * waiting for the second player; in any other state it fails and
     * nothing changes. The board is never touched.
     */
    method AddPlayer() returns (r: Result<int>)
      requires Valid()
      modifies this
      ensures Valid()
      ensures Cells() == old(Cells())
      ensures old(state) == New ==> r == Ok(1) && state == WaitingForPlayerTwo
      ensures old(state) == WaitingForPlayerTwo ==> r == Ok(2) && state == PlayerOneMove
      ensures old(state) != New && old(state) != WaitingForPlayerTwo ==>
                r == Err(IllegalStateToAddPlayer) && state == old(state)
    {
      EmptyBoardConsistent();
      if state == New {
        state := WaitingForPlayerTwo;
        return Ok(1);
      } else if state == WaitingForPlayerTwo {
        state := PlayerOneMove;
        return Ok(2);
      } else {
        return Err(IllegalStateToAddPlayer);
      }
    }

    /**
     * Player `playerId` takes cell `cellId` (row cellId / 3, column
     * cellId % 3). The first failing check decides the error, and a failed
     * move changes nothing. A successful move writes the player's id on
     * that one cell, which was empty, and leaves the state the rules give.
     */
    method ExecuteMove(playerId: int, cellId: int) returns (r: Outcome)
      requires Valid()
      modifies this, board
      ensures Valid()
      ensures r == Validate(old(state), old(Cells()), playerId, cellId)
      ensures r.Fail? ==> state == old(state) && Cells() == old(Cells())
      ensures r.Pass? ==> Move(old(state), old(Cells()), playerId, cellId) == Ok(Game(state, Cells()))
      ensures r.Pass? ==>
                0 <= cellId < CellCount &&
                old(board[cellId / 3, cellId % 3]) == Empty && board[cellId / 3, cellId % 3] == playerId
      ensures r.Pass? ==>
                forall row, column :: 0 <= row < 3 && 0 <= column < 3 && (row != cellId / 3 || column != cellId % 3) ==>
                  board[row, column] == old(board[row, column])
    {
      if state != PlayerOneMove && state != PlayerTwoMove {
        return Fail(IllegalStateToExecuteMove);
      }
      if playerId != 1 && playerId != 2 {
        return Fail(IllegalPlayerId);
      }
      if cellId < 0 || cellId > 8 {
        return Fail(IllegalCellId);
      }
      if (state == PlayerOneMove && playerId != 1) || (state == PlayerTwoMove && playerId != 2) {
        return Fail(IncorrectPlayerTurn);
      }

      var row := cellId / BoardColumns;
      var column := cellId % BoardRows;
      if board[row, column] != Empty {
        return Fail(CellAlreadyPlayed);
      }

      board[row, column] := playerId;
      assert Cells() == old(Cells())[cellId := playerId];

      if playerId == 1 {
        state := PlayerTwoMove;
      } else if playerId == 2 {
        state := PlayerOneMove;
      } else {
        // the player id was validated above: no corrupted state to report
        assert false;
      }

      CheckForWin();
      MovePreservesConsistency(old(state), old(Cells()), playerId, cellId);
      r := Pass;
    }

    /**
     * Looks for a full line, rows first, then columns, then the diagonals,
     * and sets the winner's state on the first one found; without a line
     * it sets Stalemate when the board is full, and otherwise leaves the
     * provisional state of the move.
     */
    method CheckForWin()
      requires HasShape() && ValidBoard(Cells())
      modifies this
      ensures state == Conclude(old(state), Cells())
    {
      ghost var verdicts := Verdicts(Cells());
      var winningPlayerId := 0;

      for rowId := 0 to BoardRows
        invariant winningPlayerId == Empty
        invariant Winner(Cells()) == FirstWinner(verdicts, rowId)
      {
        var playerId := CheckRowForWin(rowId);
        if playerId != Empty {
          winningPlayerId := playerId;
          break;
        }
      }

      if winningPlayerId != Empty {
        SetStateOnWin(winningPlayerId);
        return;
      }

      for columnId := 0 to BoardColumns
        invariant winningPlayerId == Empty
        invariant Winner(Cells()) == FirstWinner(verdicts, BoardRows + columnId)
        invariant state == old(state)
      {
        var playerId := CheckColumnForWin(columnId);
        if playerId != Empty {
          winningPlayerId := playerId;
          break;
        }
      }

      if winningPlayerId != Empty {
        SetStateOnWin(winningPlayerId);
        return;
      }

      winningPlayerId := CheckDiagonalsForWin();

      if winningPlayerId != Empty {
        SetStateOnWin(winningPlayerId);
        return;
      } else {
        var stalemate := CheckForStalemate();
      }
    }

    /** Records the win of player `playerId`. */
    method SetStateOnWin(playerId: int)
      requires IsPlayer(playerId)
      modifies this
      ensures state == WinState(playerId)
    {
      if playerId == 1 {
        state := PlayerOneWins;
      } else if playerId == 2 {
        state := PlayerTwoWins;
      }
    }

    /**
     * Scans the board row by row for an empty cell; when there is none the
     * game is a stalemate. Reports whether it was.
     */
    method CheckForStalemate() returns (stalemate: bool)
      requires HasShape()
      modifies this
      ensures stalemate <==> IsFull(Cells())
      ensures state == if stalemate then Stalemate else old(state)
    {
      stalemate := true;
      for rowId := 0 to BoardRows
        invariant stalemate
        invariant forall r, c :: 0 <= r < rowId && 0 <= c < BoardColumns ==> board[r, c] != Empty
      {
        for columnId := 0 to BoardColumns
          invariant stalemate
          invariant forall c :: 0 <= c < columnId ==> board[rowId, c] != Empty
        {
          if board[rowId, columnId] == Empty {
            stalemate := false;
            break;
          }
        }
        if !stalemate {
          break;
        }
      }

      if stalemate {
        state := Stalemate;
      }
    }

    /** The verdict on row `rowId`: its occupant if one player holds all of it, else 0. */
    function CheckRowForWin(rowId: int): (w: int)
      reads board
      requires HasShape() && 0 <= rowId < BoardRows
      ensures w == LineWinner(Cells(), rowId)
    {
      CheckValuesForWin([board[rowId, 0], board[rowId, 1], board[rowId, 2]])
    }

    /**
     * The verdict on column `columnId`, from the column's cells collected
     * top to bottom.
     */
    method CheckColumnForWin(columnId: int) returns (w: int)
      requires HasShape() && 0 <= columnId < BoardColumns
      ensures w == LineWinner(Cells(), BoardRows + columnId)
    {
      var values: seq<int> := [];
      for rowId := 0 to BoardRows
        invariant |values| == rowId
        invariant forall k :: 0 <= k < rowId ==> values[k] == board[k, columnId]
      {
        values := values + [board[rowId, columnId]];
      }
      assert values == Line(Cells(), BoardRows + columnId);
      w := CheckValuesForWin(values);
    }

    /**
     * The verdict on the back diagonal (top left to bottom right) if it
     * has an owner, else the verdict on the forward diagonal.
     */
    function CheckDiagonalsForWin(): (w: int)
      reads board
      requires HasShape()
      ensures w == FirstWinner(Verdicts(Cells()), 6)
    {
      var back := CheckValuesForWin([board[0, 0], board[1, 1], board[2, 2]]);
      assert back == LineWinner(Cells(), 6);
      if back != Empty then back
      else
        assert FirstWinner(Verdicts(Cells()), 8) == Empty;
        CheckValuesForWin([board[0, 2], board[1, 1], board[2, 0]])
    }

    /** The current lifecycle state; it always agrees with the board. */
    function State(): (s: GameState)
      reads this, board
      requires Valid()
      ensures s == state
      ensures Consistent(s, Cells())
    {
      state
    }

    /**
     * Whether the game is over: once both players have joined, exactly
     * when no move can succeed any more.
     */
    function IsOver(): (over: bool)
      reads this, board
      requires Valid()
      ensures over <==> state != New && state != WaitingForPlayerTwo &&
                        forall p, c :: Move(state, Cells(), p, c).Err?
      ensures over == state.IsOver()
      ensures over ==> forall p, c :: Move(state, Cells(), p, c) == Err(IllegalStateToExecuteMove)
    {
      var over := state == PlayerOneWins || state == PlayerTwoWins || state == Stalemate;
      if state == New || state == WaitingForPlayerTwo then over
      else
        OverIffNoMoveSucceeds(state, Cells());
        over
    }
  }
}
