/**
 * Whole games as sequences of moves: the invariant holds after any
 * sequence, and a few example games, played from the start, end as the rules say.
 */
module Scenarios {
  import opened Rules

  /** A move: (player id, cell id). */
  type Turn = (int, int)

  /** Both players have joined; nothing has been played. */
  const Start: Game := Game(PlayerOneMove, EmptyBoard)

  /** Plays the moves in order; the first move that fails decides the result. */
  function Play(g: Game, moves: seq<Turn>): (r: Result<Game>)
    requires ValidBoard(g.cells)
    ensures r.Ok? ==> ValidBoard(r.value.cells)
    decreases |moves|
  {
    if moves == [] then Ok(g)
    else
      match Move(g.state, g.cells, moves[0].0, moves[0].1)
      case Err(e) => Err(e)
      case Ok(next) => Play(next, moves[1..])
  }

  /** Any sequence of moves from a consistent game ends in a consistent game. */
  lemma {:induction false} PlayPreservesConsistency(g: Game, moves: seq<Turn>)
    requires Consistent(g.state, g.cells)
    requires Play(g, moves).Ok?
    ensures Consistent(Play(g, moves).value.state, Play(g, moves).value.cells)
    decreases |moves|
  {
    if moves != [] {
      var (p, c) := moves[0];
      MovePreservesConsistency(g.state, g.cells, p, c);
      var next := Move(g.state, g.cells, p, c).value;
      PlayPreservesConsistency(next, moves[1..]);
    }
  }

  /**
   * A finished game has exactly one outcome: one player wins with a line
   * the other lacks, or the board is full with no line.
   */
  lemma FinishedGameHasOneOutcome(moves: seq<Turn>)
    requires Play(Start, moves).Ok? && Play(Start, moves).value.state.IsOver()
    ensures var g := Play(Start, moves).value;
      || (g.state == PlayerOneWins && HasLine(g.cells, 1) && !HasLine(g.cells, 2))
      || (g.state == PlayerTwoWins && HasLine(g.cells, 2) && !HasLine(g.cells, 1))
      || (g.state == Stalemate && IsFull(g.cells) && NoLine(g.cells))
  {
    EmptyBoardConsistent();
    PlayPreservesConsistency(Start, moves);
  }

  /**
   * The opening move never ends the game: one cell of player one makes no
   * line and leaves the board far from full, so player two moves next.
   */
  lemma OpeningMove(c: int)
    requires 0 <= c < CellCount
    ensures Move(PlayerOneMove, EmptyBoard, 1, c) == Ok(Game(PlayerTwoMove, EmptyBoard[c := 1]))
  {
    var b := EmptyBoard[c := 1];
    OneCellMakesNoLine(c);
    assert b[(c + 1) % CellCount] == Empty;
    QuietMove(PlayerOneMove, EmptyBoard, 1, c);
  }

  /** A game that opens with player one in the top left corner plays on from that move. */
  lemma OpeningStep(moves: seq<Turn>, g1: Game)
    requires moves != [] && moves[0] == (1, 0)
    requires g1 == Game(PlayerTwoMove, EmptyBoard[0 := 1])
    ensures Play(Start, moves) == Play(g1, moves[1..])
  {
    OpeningMove(0);
    PlayStep(Start, moves);
  }

  /** A sequence whose first move succeeds plays on from the game that move leaves. */
  lemma PlayStep(g: Game, moves: seq<Turn>)
    requires ValidBoard(g.cells) && moves != []
    requires Move(g.state, g.cells, moves[0].0, moves[0].1).Ok?
    ensures Play(g, moves) == Play(Move(g.state, g.cells, moves[0].0, moves[0].1).value, moves[1..])
  {
  }

  /**
   * A valid move that gives nobody a line and leaves an empty cell hands
   * the turn to the opponent.
   */
  lemma QuietMove(s: GameState, b: seq<int>, p: int, c: int)
    requires ValidBoard(b) && Validate(s, b, p, c) == Pass
    requires NoLine(b[c := p]) && !IsFull(b[c := p])
    ensures Move(s, b, p, c) == Ok(Game(NextTurn(p), b[c := p]))
  {
    WinnerHoldsFirstLine(b[c := p]);
  }

  /** A board holding one cell of player one has no line. */
  lemma OneCellMakesNoLine(c: int)
    requires 0 <= c < CellCount
    ensures NoLine(EmptyBoard[c := 1])
  {
    var b := EmptyBoard[c := 1];
    forall p, k | IsPlayer(p) && 0 <= k < LineCount
      ensures !Owns(b, k, p)
    {
      var t := LineCells(k);
      if t[0] == c {
        assert b[t[1]] == Empty;
      } else {
        assert b[t[0]] == Empty;
      }
    }
  }

  /** The top-row game once 4 moves are played. */
  lemma RowWinFrom4()
    ensures Play(Game(PlayerOneMove, [1, 1, 0, 2, 2, 0, 0, 0, 0]), [(1, 2)])
            == Ok(Game(PlayerOneWins, [1, 1, 1, 2, 2, 0, 0, 0, 0]))
  {
    var b := [1, 1, 1, 2, 2, 0, 0, 0, 0];
    assert [1, 1, 0, 2, 2, 0, 0, 0, 0][2 := 1] == b;
    assert Verdicts(b) == [1, 0, 0, 0, 0, 0, 0, 0];
    assert Move(PlayerOneMove, [1, 1, 0, 2, 2, 0, 0, 0, 0], 1, 2) == Ok(Game(PlayerOneWins, b));
  }

  /** The top-row game once 3 moves are played. */
  lemma RowWinFrom3()
    ensures Play(Game(PlayerTwoMove, [1, 1, 0, 2, 0, 0, 0, 0, 0]), [(2, 4), (1, 2)])
            == Ok(Game(PlayerOneWins, [1, 1, 1, 2, 2, 0, 0, 0, 0]))
  {
    var b := [1, 1, 0, 2, 2, 0, 0, 0, 0];
    assert [1, 1, 0, 2, 0, 0, 0, 0, 0][4 := 2] == b;
    assert Verdicts(b) == [0, 0, 0, 0, 0, 0, 0, 0];
    assert Move(PlayerTwoMove, [1, 1, 0, 2, 0, 0, 0, 0, 0], 2, 4) == Ok(Game(PlayerOneMove, b));
    RowWinFrom4();
  }

  /** The top-row game once 2 moves are played. */
  lemma RowWinFrom2()
    ensures Play(Game(PlayerOneMove, [1, 0, 0, 2, 0, 0, 0, 0, 0]), [(1, 1), (2, 4), (1, 2)])
            == Ok(Game(PlayerOneWins, [1, 1, 1, 2, 2, 0, 0, 0, 0]))
  {
    var b := [1, 1, 0, 2, 0, 0, 0, 0, 0];
    assert [1, 0, 0, 2, 0, 0, 0, 0, 0][1 := 1] == b;
    assert Verdicts(b) == [0, 0, 0, 0, 0, 0, 0, 0];
    assert Move(PlayerOneMove, [1, 0, 0, 2, 0, 0, 0, 0, 0], 1, 1) == Ok(Game(PlayerTwoMove, b));
    RowWinFrom3();
  }

  /** The top-row game once 1 move is played. */
  lemma RowWinFrom1()
    ensures Play(Game(PlayerTwoMove, [1, 0, 0, 0, 0, 0, 0, 0, 0]), [(2, 3), (1, 1), (2, 4), (1, 2)])
            == Ok(Game(PlayerOneWins, [1, 1, 1, 2, 2, 0, 0, 0, 0]))
  {
    var b := [1, 0, 0, 2, 0, 0, 0, 0, 0];
    assert [1, 0, 0, 0, 0, 0, 0, 0, 0][3 := 2] == b;
    assert Verdicts(b) == [0, 0, 0, 0, 0, 0, 0, 0];
    assert Move(PlayerTwoMove, [1, 0, 0, 0, 0, 0, 0, 0, 0], 2, 3) == Ok(Game(PlayerOneMove, b));
    RowWinFrom2();
  }

  /** Player one completes the top row on the fifth move and wins. */
  lemma RowWin()
    ensures Play(Start, [(1, 0), (2, 3), (1, 1), (2, 4), (1, 2)])
            == Ok(Game(PlayerOneWins, [1, 1, 1, 2, 2, 0, 0, 0, 0]))
  {
    var g1 := Game(PlayerTwoMove, [1, 0, 0, 0, 0, 0, 0, 0, 0]);
    assert EmptyBoard[0 := 1] == g1.cells;
    OpeningStep([(1, 0), (2, 3), (1, 1), (2, 4), (1, 2)], g1);
    RowWinFrom1();
  }

  /** The left-column game once 4 moves are played. */
  lemma ColumnWinFrom4()
    ensures Play(Game(PlayerOneMove, [1, 2, 0, 1, 2, 0, 0, 0, 0]), [(1, 6)])
            == Ok(Game(PlayerOneWins, [1, 2, 0, 1, 2, 0, 1, 0, 0]))
  {
    var b := [1, 2, 0, 1, 2, 0, 1, 0, 0];
    assert [1, 2, 0, 1, 2, 0, 0, 0, 0][6 := 1] == b;
    assert Verdicts(b) == [0, 0, 0, 1, 0, 0, 0, 0];
    assert Move(PlayerOneMove, [1, 2, 0, 1, 2, 0, 0, 0, 0], 1, 6) == Ok(Game(PlayerOneWins, b));
  }

  /** The left-column game once 3 moves are played. */
  lemma ColumnWinFrom3()
    ensures Play(Game(PlayerTwoMove, [1, 2, 0, 1, 0, 0, 0, 0, 0]), [(2, 4), (1, 6)])
            == Ok(Game(PlayerOneWins, [1, 2, 0, 1, 2, 0, 1, 0, 0]))
  {
    var b := [1, 2, 0, 1, 2, 0, 0, 0, 0];
    assert [1, 2, 0, 1, 0, 0, 0, 0, 0][4 := 2] == b;
    assert Verdicts(b) == [0, 0, 0, 0, 0, 0, 0, 0];
    assert Move(PlayerTwoMove, [1, 2, 0, 1, 0, 0, 0, 0, 0], 2, 4) == Ok(Game(PlayerOneMove, b));
    ColumnWinFrom4();
  }

  /** The left-column game once 2 moves are played. */
  lemma ColumnWinFrom2()
    ensures Play(Game(PlayerOneMove, [1, 2, 0, 0, 0, 0, 0, 0, 0]), [(1, 3), (2, 4), (1, 6)])
            == Ok(Game(PlayerOneWins, [1, 2, 0, 1, 2, 0, 1, 0, 0]))
  {
    var b := [1, 2, 0, 1, 0, 0, 0, 0, 0];
    assert [1, 2, 0, 0, 0, 0, 0, 0, 0][3 := 1] == b;
    assert Verdicts(b) == [0, 0, 0, 0, 0, 0, 0, 0];
    assert Move(PlayerOneMove, [1, 2, 0, 0, 0, 0, 0, 0, 0], 1, 3) == Ok(Game(PlayerTwoMove, b));
    ColumnWinFrom3();
  }

  /** The left-column game once 1 move is played. */
  lemma ColumnWinFrom1()
    ensures Play(Game(PlayerTwoMove, [1, 0, 0, 0, 0, 0, 0, 0, 0]), [(2, 1), (1, 3), (2, 4), (1, 6)])
            == Ok(Game(PlayerOneWins, [1, 2, 0, 1, 2, 0, 1, 0, 0]))
  {
    var b := [1, 2, 0, 0, 0, 0, 0, 0, 0];
    assert [1, 0, 0, 0, 0, 0, 0, 0, 0][1 := 2] == b;
    assert Verdicts(b) == [0, 0, 0, 0, 0, 0, 0, 0];
    assert Move(PlayerTwoMove, [1, 0, 0, 0, 0, 0, 0, 0, 0], 2, 1) == Ok(Game(PlayerOneMove, b));
    ColumnWinFrom2();
  }

  /** Player one completes the left column on the fifth move and wins. */
  lemma ColumnWin()
    ensures Play(Start, [(1, 0), (2, 1), (1, 3), (2, 4), (1, 6)])
            == Ok(Game(PlayerOneWins, [1, 2, 0, 1, 2, 0, 1, 0, 0]))
  {
    var g1 := Game(PlayerTwoMove, [1, 0, 0, 0, 0, 0, 0, 0, 0]);
    assert EmptyBoard[0 := 1] == g1.cells;
    OpeningStep([(1, 0), (2, 1), (1, 3), (2, 4), (1, 6)], g1);
    ColumnWinFrom1();
  }

  /** The back-diagonal game once 4 moves are played. */
  lemma DiagonalWinFrom4()
    ensures Play(Game(PlayerOneMove, [1, 2, 2, 0, 1, 0, 0, 0, 0]), [(1, 8)])
            == Ok(Game(PlayerOneWins, [1, 2, 2, 0, 1, 0, 0, 0, 1]))
  {
    var b := [1, 2, 2, 0, 1, 0, 0, 0, 1];
    assert [1, 2, 2, 0, 1, 0, 0, 0, 0][8 := 1] == b;
    assert Verdicts(b) == [0, 0, 0, 0, 0, 0, 1, 0];
    assert Move(PlayerOneMove, [1, 2, 2, 0, 1, 0, 0, 0, 0], 1, 8) == Ok(Game(PlayerOneWins, b));
  }

  /** The back-diagonal game once 3 moves are played. */
  lemma DiagonalWinFrom3()
    ensures Play(Game(PlayerTwoMove, [1, 2, 0, 0, 1, 0, 0, 0, 0]), [(2, 2), (1, 8)])
            == Ok(Game(PlayerOneWins, [1, 2, 2, 0, 1, 0, 0, 0, 1]))
  {
    var b := [1, 2, 2, 0, 1, 0, 0, 0, 0];
    assert [1, 2, 0, 0, 1, 0, 0, 0, 0][2 := 2] == b;
    assert Verdicts(b) == [0, 0, 0, 0, 0, 0, 0, 0];
    assert Move(PlayerTwoMove, [1, 2, 0, 0, 1, 0, 0, 0, 0], 2, 2) == Ok(Game(PlayerOneMove, b));
    DiagonalWinFrom4();
  }

  /** The back-diagonal game once 2 moves are played. */
  lemma DiagonalWinFrom2()
    ensures Play(Game(PlayerOneMove, [1, 2, 0, 0, 0, 0, 0, 0, 0]), [(1, 4), (2, 2), (1, 8)])
            == Ok(Game(PlayerOneWins, [1, 2, 2, 0, 1, 0, 0, 0, 1]))
  {
    var b := [1, 2, 0, 0, 1, 0, 0, 0, 0];
    assert [1, 2, 0, 0, 0, 0, 0, 0, 0][4 := 1] == b;
    assert Verdicts(b) == [0, 0, 0, 0, 0, 0, 0, 0];
    assert Move(PlayerOneMove, [1, 2, 0, 0, 0, 0, 0, 0, 0], 1, 4) == Ok(Game(PlayerTwoMove, b));
    DiagonalWinFrom3();
  }

  /** The back-diagonal game once 1 move is played. */
  lemma DiagonalWinFrom1()
    ensures Play(Game(PlayerTwoMove, [1, 0, 0, 0, 0, 0, 0, 0, 0]), [(2, 1), (1, 4), (2, 2), (1, 8)])
            == Ok(Game(PlayerOneWins, [1, 2, 2, 0, 1, 0, 0, 0, 1]))
  {
    var b := [1, 2, 0, 0, 0, 0, 0, 0, 0];
    assert [1, 0, 0, 0, 0, 0, 0, 0, 0][1 := 2] == b;
    assert Verdicts(b) == [0, 0, 0, 0, 0, 0, 0, 0];
    assert Move(PlayerTwoMove, [1, 0, 0, 0, 0, 0, 0, 0, 0], 2, 1) == Ok(Game(PlayerOneMove, b));
    DiagonalWinFrom2();
  }

  /** Player one completes the back diagonal on the fifth move and wins. */
  lemma DiagonalWin()
    ensures Play(Start, [(1, 0), (2, 1), (1, 4), (2, 2), (1, 8)])
            == Ok(Game(PlayerOneWins, [1, 2, 2, 0, 1, 0, 0, 0, 1]))
  {
    var g1 := Game(PlayerTwoMove, [1, 0, 0, 0, 0, 0, 0, 0, 0]);
    assert EmptyBoard[0 := 1] == g1.cells;
    OpeningStep([(1, 0), (2, 1), (1, 4), (2, 2), (1, 8)], g1);
    DiagonalWinFrom1();
  }

  /** The drawn game once 8 moves are played. */
  lemma FullBoardStalemateFrom8()
    ensures Play(Game(PlayerOneMove, [1, 1, 2, 2, 2, 1, 1, 2, 0]), [(1, 8)])
            == Ok(Game(Stalemate, [1, 1, 2, 2, 2, 1, 1, 2, 1]))
  {
    var b := [1, 1, 2, 2, 2, 1, 1, 2, 1];
    assert [1, 1, 2, 2, 2, 1, 1, 2, 0][8 := 1] == b;
    assert Verdicts(b) == [0, 0, 0, 0, 0, 0, 0, 0];
    assert Move(PlayerOneMove, [1, 1, 2, 2, 2, 1, 1, 2, 0], 1, 8) == Ok(Game(Stalemate, b));
  }

  /** The drawn game once 7 moves are played. */
  lemma FullBoardStalemateFrom7()
    ensures Play(Game(PlayerTwoMove, [1, 1, 2, 2, 2, 1, 1, 0, 0]), [(2, 7), (1, 8)])
            == Ok(Game(Stalemate, [1, 1, 2, 2, 2, 1, 1, 2, 1]))
  {
    var b := [1, 1, 2, 2, 2, 1, 1, 2, 0];
    assert [1, 1, 2, 2, 2, 1, 1, 0, 0][7 := 2] == b;
    assert Verdicts(b) == [0, 0, 0, 0, 0, 0, 0, 0];
    assert Move(PlayerTwoMove, [1, 1, 2, 2, 2, 1, 1, 0, 0], 2, 7) == Ok(Game(PlayerOneMove, b));
    FullBoardStalemateFrom8();
  }

  /** The drawn game once 6 moves are played. */
  lemma FullBoardStalemateFrom6()
    ensures Play(Game(PlayerOneMove, [1, 1, 2, 2, 2, 1, 0, 0, 0]), [(1, 6), (2, 7), (1, 8)])
            == Ok(Game(Stalemate, [1, 1, 2, 2, 2, 1, 1, 2, 1]))
  {
    var b := [1, 1, 2, 2, 2, 1, 1, 0, 0];
    assert [1, 1, 2, 2, 2, 1, 0, 0, 0][6 := 1] == b;
    assert Verdicts(b) == [0, 0, 0, 0, 0, 0, 0, 0];
    assert Move(PlayerOneMove, [1, 1, 2, 2, 2, 1, 0, 0, 0], 1, 6) == Ok(Game(PlayerTwoMove, b));
    FullBoardStalemateFrom7();
  }

  /** The drawn game once 5 moves are played. */
  lemma FullBoardStalemateFrom5()
    ensures Play(Game(PlayerTwoMove, [1, 1, 2, 2, 0, 1, 0, 0, 0]), [(2, 4), (1, 6), (2, 7), (1, 8)])
            == Ok(Game(Stalemate, [1, 1, 2, 2, 2, 1, 1, 2, 1]))
  {
    var b := [1, 1, 2, 2, 2, 1, 0, 0, 0];
    assert [1, 1, 2, 2, 0, 1, 0, 0, 0][4 := 2] == b;
    assert Verdicts(b) == [0, 0, 0, 0, 0, 0, 0, 0];
    assert Move(PlayerTwoMove, [1, 1, 2, 2, 0, 1, 0, 0, 0], 2, 4) == Ok(Game(PlayerOneMove, b));
    FullBoardStalemateFrom6();
  }

  /** The drawn game once 4 moves are played. */
  lemma FullBoardStalemateFrom4()
    ensures Play(Game(PlayerOneMove, [1, 1, 2, 2, 0, 0, 0, 0, 0]), [(1, 5), (2, 4), (1, 6), (2, 7), (1, 8)])
            == Ok(Game(Stalemate, [1, 1, 2, 2, 2, 1, 1, 2, 1]))
  {
    var b := [1, 1, 2, 2, 0, 1, 0, 0, 0];
    assert [1, 1, 2, 2, 0, 0, 0, 0, 0][5 := 1] == b;
    assert Verdicts(b) == [0, 0, 0, 0, 0, 0, 0, 0];
    assert Move(PlayerOneMove, [1, 1, 2, 2, 0, 0, 0, 0, 0], 1, 5) == Ok(Game(PlayerTwoMove, b));
    FullBoardStalemateFrom5();
  }

  /** The drawn game once 3 moves are played. */
  lemma FullBoardStalemateFrom3()
    ensures Play(Game(PlayerTwoMove, [1, 1, 2, 0, 0, 0, 0, 0, 0]), [(2, 3), (1, 5), (2, 4), (1, 6), (2, 7), (1, 8)])
            == Ok(Game(Stalemate, [1, 1, 2, 2, 2, 1, 1, 2, 1]))
  {
    var b := [1, 1, 2, 2, 0, 0, 0, 0, 0];
    assert [1, 1, 2, 0, 0, 0, 0, 0, 0][3 := 2] == b;
    assert Verdicts(b) == [0, 0, 0, 0, 0, 0, 0, 0];
    assert Move(PlayerTwoMove, [1, 1, 2, 0, 0, 0, 0, 0, 0], 2, 3) == Ok(Game(PlayerOneMove, b));
    FullBoardStalemateFrom4();
  }

  /** The drawn game once 2 moves are played. */
  lemma FullBoardStalemateFrom2()
    ensures Play(Game(PlayerOneMove, [1, 0, 2, 0, 0, 0, 0, 0, 0]), [(1, 1), (2, 3), (1, 5), (2, 4), (1, 6), (2, 7), (1, 8)])
            == Ok(Game(Stalemate, [1, 1, 2, 2, 2, 1, 1, 2, 1]))
  {
    var b := [1, 1, 2, 0, 0, 0, 0, 0, 0];
    assert [1, 0, 2, 0, 0, 0, 0, 0, 0][1 := 1] == b;
    assert Verdicts(b) == [0, 0, 0, 0, 0, 0, 0, 0];
    assert Move(PlayerOneMove, [1, 0, 2, 0, 0, 0, 0, 0, 0], 1, 1) == Ok(Game(PlayerTwoMove, b));
    FullBoardStalemateFrom3();
  }

  /** The drawn game once 1 move is played. */
  lemma FullBoardStalemateFrom1()
    ensures Play(Game(PlayerTwoMove, [1, 0, 0, 0, 0, 0, 0, 0, 0]), [(2, 2), (1, 1), (2, 3), (1, 5), (2, 4), (1, 6), (2, 7), (1, 8)])
            == Ok(Game(Stalemate, [1, 1, 2, 2, 2, 1, 1, 2, 1]))
  {
    var b := [1, 0, 2, 0, 0, 0, 0, 0, 0];
    assert [1, 0, 0, 0, 0, 0, 0, 0, 0][2 := 2] == b;
    assert Verdicts(b) == [0, 0, 0, 0, 0, 0, 0, 0];
    assert Move(PlayerTwoMove, [1, 0, 0, 0, 0, 0, 0, 0, 0], 2, 2) == Ok(Game(PlayerOneMove, b));
    FullBoardStalemateFrom2();
  }

  /** Nine moves fill the board without a line: a stalemate. */
  lemma FullBoardStalemate()
    ensures Play(Start, [(1, 0), (2, 2), (1, 1), (2, 3), (1, 5), (2, 4), (1, 6), (2, 7), (1, 8)])
            == Ok(Game(Stalemate, [1, 1, 2, 2, 2, 1, 1, 2, 1]))
  {
    var g1 := Game(PlayerTwoMove, [1, 0, 0, 0, 0, 0, 0, 0, 0]);
    assert EmptyBoard[0 := 1] == g1.cells;
    OpeningStep([(1, 0), (2, 2), (1, 1), (2, 3), (1, 5), (2, 4), (1, 6), (2, 7), (1, 8)], g1);
    FullBoardStalemateFrom1();
  }

  /** Player two cannot open the game. */
  lemma OutOfTurn()
    ensures Move(PlayerOneMove, EmptyBoard, 2, 0) == Err(IncorrectPlayerTurn)
  {
  }

  /** A taken cell cannot be played again. */
  lemma ReplayedCell()
    ensures Move(PlayerTwoMove, [0, 0, 0, 0, 1, 0, 0, 0, 0], 2, 4) == Err(CellAlreadyPlayed)
  {
  }
}
