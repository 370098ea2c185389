/**
 * The rules of 3x3 tic-tac-toe as the game engine applies them, stated as
 * pure functions over values.
 *
 * A board is nine cells in row-major order: cell id `3 * row + column`.
 * A cell holds 0 when it is empty, or the id (1 or 2) of the player who
 * took it. The eight lines are numbered in the order the engine checks
 * them: rows 0..2, then columns 0..2 (lines 3..5), then the back diagonal
 * (line 6) and the forward diagonal (line 7).
 *
 * The GameEngine class (module Engine) is proved against these definitions.
 */
module Rules {

  const BoardRows: int := 3
  const BoardColumns: int := 3
  const CellCount: int := 9
  const LineCount: int := 8

  /** The value of a cell nobody has played. */
  const Empty: int := 0

  /** The lifecycle of one game. */
  datatype GameState =
    | New
    | WaitingForPlayerTwo
    | PlayerOneMove
    | PlayerTwoMove
    | PlayerOneWins
    | PlayerTwoWins
    | Stalemate
  {
    /** Both players have joined and a move is expected. */
    predicate InPlay() {
      this == PlayerOneMove || this == PlayerTwoMove
    }

    /** One of the three terminal states. */
    predicate IsOver() {
      this == PlayerOneWins || this == PlayerTwoWins || this == Stalemate
    }
  }

  /**
   * Every state lies in exactly one phase of the lifecycle: before both
   * players have joined, in play, or over.
   */
  lemma LifecyclePhases(s: GameState)
    ensures (s == New || s == WaitingForPlayerTwo) != (s.InPlay() || s.IsOver())
    ensures !(s.InPlay() && s.IsOver())
  {
  }

  /** The failures the engine signals, one per distinct cause. */
  datatype Error =
    | IllegalStateToAddPlayer
    | IllegalStateToExecuteMove
    | IllegalPlayerId
    | IllegalCellId
    | IncorrectPlayerTurn
    | CellAlreadyPlayed

  datatype Result<T> = Ok(value: T) | Err(error: Error)

  /** Success or failure of an operation that returns nothing. */
  datatype Outcome = Pass | Fail(error: Error)

  /** A game as a value: its state and its nine cells. */
  datatype Game = Game(state: GameState, cells: seq<int>)

  predicate IsPlayer(p: int) {
    p == 1 || p == 2
  }

  /** The other player. */
  function Opponent(p: int): (q: int)
    requires IsPlayer(p)
    ensures IsPlayer(q) && q != p
  {
    3 - p
  }

  /** The player an in-play state waits for. */
  function Mover(s: GameState): (p: int)
    requires s.InPlay()
    ensures IsPlayer(p)
    ensures s == (if p == 1 then PlayerOneMove else PlayerTwoMove)
  {
    if s == PlayerOneMove then 1 else 2
  }

  /** The provisional state after player `p` has moved: the opponent is to move. */
  function NextTurn(p: int): (s: GameState)
    requires IsPlayer(p)
    ensures s.InPlay() && Mover(s) == Opponent(p)
  {
    if p == 1 then PlayerTwoMove else PlayerOneMove
  }

  /** The terminal state in which player `p` has won. */
  function WinState(p: int): (s: GameState)
    requires IsPlayer(p)
    ensures s.IsOver() && s != Stalemate
    ensures (s == PlayerOneWins) == (p == 1)
  {
    if p == 1 then PlayerOneWins else PlayerTwoWins
  }

  /** Nine cells, each empty or taken by one of the two players. */
  predicate ValidBoard(b: seq<int>) {
    |b| == CellCount && forall i :: 0 <= i < |b| ==> 0 <= b[i] <= 2
  }

  const EmptyBoard: seq<int> := [0, 0, 0, 0, 0, 0, 0, 0, 0]

  /** No cell is empty. */
  predicate IsFull(b: seq<int>) {
    forall i :: 0 <= i < |b| ==> b[i] != Empty
  }

  /** The cell ids of line `k`, in the order the engine reads them. */
  function LineCells(k: int): (t: seq<int>)
    requires 0 <= k < LineCount
    ensures |t| == 3
    ensures forall m :: 0 <= m < 3 ==> 0 <= t[m] < CellCount
    ensures t[0] != t[1] && t[1] != t[2] && t[0] != t[2]
  {
    if k < BoardRows then [3 * k, 3 * k + 1, 3 * k + 2]
    else if k < BoardRows + BoardColumns then [k - 3, k, k + 3]
    else if k == 6 then [0, 4, 8]
    else [2, 4, 6]
  }

  /** The three values on line `k` of board `b`. */
  function Line(b: seq<int>, k: int): (values: seq<int>)
    requires |b| == CellCount && 0 <= k < LineCount
    ensures |values| == 3
  {
    var t := LineCells(k);
    [b[t[0]], b[t[1]], b[t[2]]]
  }

  /** Player `p` holds every cell of line `k`. */
  predicate Owns(b: seq<int>, k: int, p: int)
    requires |b| == CellCount && 0 <= k < LineCount
  {
    var t := LineCells(k);
    b[t[0]] == p && b[t[1]] == p && b[t[2]] == p
  }

  /** Player `p` holds some full line. */
  predicate HasLine(b: seq<int>, p: int)
    requires |b| == CellCount
  {
    exists k :: 0 <= k < LineCount && Owns(b, k, p)
  }

  /** Neither player holds a full line. */
  predicate NoLine(b: seq<int>)
    requires |b| == CellCount
  {
    !HasLine(b, 1) && !HasLine(b, 2)
  }

  /**
   * The verdict on three values: their common value when all three are
   * equal and non-empty, otherwise 0. Only the first value is tested for
   * emptiness, which suffices because the other two must equal it.
   */
  function CheckValuesForWin(values: seq<int>): (w: int)
    requires |values| == 3
    ensures w != Empty ==> values == [w, w, w]
    ensures values[0] != Empty && values == [values[0], values[0], values[0]] ==> w == values[0]
  {
    if values[0] != Empty then
      if values[0] == values[1] && values[1] == values[2] then values[0] else Empty
    else
      Empty
  }

  /**
   * The verdict on line `k`: the occupant of its first cell when that
   * player holds the whole line, otherwise 0.
   */
  function LineWinner(b: seq<int>, k: int): (w: int)
    requires |b| == CellCount && 0 <= k < LineCount
    ensures w != Empty <==> b[LineCells(k)[0]] != Empty && Owns(b, k, b[LineCells(k)[0]])
    ensures w != Empty ==> w == b[LineCells(k)[0]]
  {
    CheckValuesForWin(Line(b, k))
  }

  /** The verdicts on the eight lines, in the order the engine checks them. */
  function Verdicts(b: seq<int>): (v: seq<int>)
    requires |b| == CellCount
    ensures |v| == LineCount
    ensures forall k :: 0 <= k < LineCount ==> v[k] == LineWinner(b, k)
  {
    [LineWinner(b, 0), LineWinner(b, 1), LineWinner(b, 2),
     LineWinner(b, 3), LineWinner(b, 4), LineWinner(b, 5),
     LineWinner(b, 6), LineWinner(b, 7)]
  }

  /**
   * The first non-zero verdict at index k or later, or 0 when there is
   * none: the short-circuit search the engine runs over the lines.
   */
  function FirstWinner(v: seq<int>, k: int): (w: int)
    requires 0 <= k <= |v|
    ensures (forall i :: 0 <= i < |v| ==> 0 <= v[i] <= 2) ==> 0 <= w <= 2
    decreases |v| - k
  {
    if k == |v| then Empty
    else if v[k] != Empty then v[k]
    else FirstWinner(v, k + 1)
  }

  /** The occupant of the first full line of the board, or 0. */
  function Winner(b: seq<int>): int
    requires |b| == CellCount
  {
    FirstWinner(Verdicts(b), 0)
  }

  /**
   * The state once a move has been made: the winner of the first full
   * line if there is one, else Stalemate if the board is full, else the
   * provisional state the move set.
   */
  function Conclude(provisional: GameState, b: seq<int>): GameState
    requires ValidBoard(b)
  {
    var w := Winner(b);
    if w != Empty then WinState(w)
    else if IsFull(b) then Stalemate
    else provisional
  }

  /**
   * The checks a move must pass, in the engine's order; the first one that
   * fails decides the error.
   */
  function Validate(s: GameState, b: seq<int>, p: int, c: int): (r: Outcome)
    requires |b| == CellCount
    ensures r == Pass <==> s.InPlay() && p == Mover(s) && 0 <= c < CellCount && b[c] == Empty
    ensures r == Fail(IllegalStateToExecuteMove) <==> !s.InPlay()
    ensures r == Fail(IllegalPlayerId) <==> s.InPlay() && !IsPlayer(p)
    ensures r == Fail(IllegalCellId) <==> s.InPlay() && IsPlayer(p) && !(0 <= c < CellCount)
    ensures r == Fail(IncorrectPlayerTurn) <==>
              s.InPlay() && IsPlayer(p) && 0 <= c < CellCount && p != Mover(s)
    ensures r == Fail(CellAlreadyPlayed) <==>
              s.InPlay() && p == Mover(s) && 0 <= c < CellCount && b[c] != Empty
  {
    if s != PlayerOneMove && s != PlayerTwoMove then Fail(IllegalStateToExecuteMove)
    else if p != 1 && p != 2 then Fail(IllegalPlayerId)
    else if c < 0 || c > 8 then Fail(IllegalCellId)
    else if (s == PlayerOneMove && p != 1) || (s == PlayerTwoMove && p != 2) then Fail(IncorrectPlayerTurn)
    else if b[c] != Empty then Fail(CellAlreadyPlayed)
    else Pass
  }

  /** A move by player `p` on cell `c`: the failure, or the game after it. */
  function Move(s: GameState, b: seq<int>, p: int, c: int): (r: Result<Game>)
    requires ValidBoard(b)
    ensures r.Err? <==> Validate(s, b, p, c).Fail?
    ensures r.Err? ==> r.error == Validate(s, b, p, c).error
    ensures r.Ok? ==> ValidBoard(r.value.cells)
  {
    match Validate(s, b, p, c)
    case Fail(e) => Err(e)
    case Pass =>
      var cells := b[c := p];
      Ok(Game(Conclude(NextTurn(p), cells), cells))
  }

  /** How many cells of `b` hold `v`. */
  function Count(b: seq<int>, v: int): (n: nat)
    ensures n <= |b|
  {
    if b == [] then 0 else (if b[0] == v then 1 else 0) + Count(b[1..], v)
  }

  /**
   * The engine's invariant, relating the state to the board: the board is
   * empty until both players have joined; while a move is expected nobody
   * has a line, the board is not full and the turn follows from how many
   * cells each player holds (player one moves first); a win means the
   * winner holds a line and the loser none; a stalemate means a full board
   * without a line.
   */
  predicate Consistent(s: GameState, b: seq<int>) {
    && ValidBoard(b)
    && match s
       case New => b == EmptyBoard
       case WaitingForPlayerTwo => b == EmptyBoard
       case PlayerOneMove => NoLine(b) && !IsFull(b) && Count(b, 1) == Count(b, 2)
       case PlayerTwoMove => NoLine(b) && !IsFull(b) && Count(b, 1) == Count(b, 2) + 1
       case PlayerOneWins => HasLine(b, 1) && !HasLine(b, 2) && Count(b, 1) == Count(b, 2) + 1
       case PlayerTwoWins => HasLine(b, 2) && !HasLine(b, 1) && Count(b, 1) == Count(b, 2)
       case Stalemate => IsFull(b) && NoLine(b) && Count(b, 1) == Count(b, 2) + 1
  }

  // ---------------------------------------------------------------------
  // Line detection
  // ---------------------------------------------------------------------

  /**
   * FirstWinner(v, k) is the first non-zero entry of v at index k or later,
   * and 0 when there is none; `j` is its index, or |v| when there is none.
   */
  lemma {:induction false} FirstWinnerIsFirstNonZero(v: seq<int>, k: int) returns (j: int)
    requires 0 <= k <= |v|
    ensures k <= j <= |v|
    ensures forall i :: k <= i < j ==> v[i] == Empty
    ensures j < |v| ==> v[j] != Empty && FirstWinner(v, k) == v[j]
    ensures j == |v| ==> FirstWinner(v, k) == Empty
    decreases |v| - k
  {
    if k == |v| || v[k] != Empty {
      j := k;
    } else {
      j := FirstWinnerIsFirstNonZero(v, k + 1);
    }
  }

  /** A line that a player holds has that player as its verdict. */
  lemma OwnerIsVerdict(b: seq<int>, k: int, p: int)
    requires |b| == CellCount && 0 <= k < LineCount && p != Empty
    requires Owns(b, k, p)
    ensures LineWinner(b, k) == p
  {
    assert b[LineCells(k)[0]] == p;
  }

  /**
   * The winner the engine reports holds the first full line in the order
   * rows, columns, back diagonal, forward diagonal; 0 is reported exactly
   * when neither player holds a line.
   */
  lemma WinnerHoldsFirstLine(b: seq<int>)
    requires ValidBoard(b)
    ensures Winner(b) != Empty ==>
              IsPlayer(Winner(b)) &&
              exists k :: 0 <= k < LineCount && Owns(b, k, Winner(b)) &&
                          forall i :: 0 <= i < k ==> LineWinner(b, i) == Empty
    ensures Winner(b) != Empty ==> HasLine(b, Winner(b))
    ensures Winner(b) == Empty <==> NoLine(b)
  {
    forall p, k | p != Empty && 0 <= k < LineCount && Owns(b, k, p)
      ensures LineWinner(b, k) == p
    {
      OwnerIsVerdict(b, k, p);
    }
    var j := FirstWinnerIsFirstNonZero(Verdicts(b), 0);
    if j < LineCount {
      assert Owns(b, j, Winner(b));
    }
  }

  /**
   * The state decision after a move: a winner takes the game when either
   * player holds a line, a full board without a line is a stalemate, and
   * otherwise the provisional state stands.
   */
  lemma ConcludeDecides(provisional: GameState, b: seq<int>)
    requires ValidBoard(b)
    ensures HasLine(b, 1) || HasLine(b, 2) ==>
              IsPlayer(Winner(b)) && HasLine(b, Winner(b)) &&
              Conclude(provisional, b) == WinState(Winner(b))
    ensures NoLine(b) && IsFull(b) ==> Conclude(provisional, b) == Stalemate
    ensures NoLine(b) && !IsFull(b) ==> Conclude(provisional, b) == provisional
  {
    WinnerHoldsFirstLine(b);
  }

  /**
   * Placing player `p` on a cell cannot give any other player a line they
   * did not already hold.
   */
  lemma NewLineBelongsToMover(b: seq<int>, c: int, p: int, q: int)
    requires |b| == CellCount && 0 <= c < CellCount && q != p
    ensures HasLine(b[c := p], q) ==> HasLine(b, q)
  {
    if HasLine(b[c := p], q) {
      var k :| 0 <= k < LineCount && Owns(b[c := p], k, q);
      var t := LineCells(k);
      assert b[c := p][t[0]] == q && b[c := p][t[1]] == q && b[c := p][t[2]] == q;
      assert t[0] != c && t[1] != c && t[2] != c;
      assert Owns(b, k, q);
    }
  }

  // ---------------------------------------------------------------------
  // Counting cells
  // ---------------------------------------------------------------------

  /** Writing `p` over a cell holding `v != p` adds one `p`, removes one `v` and keeps every other count. */
  lemma {:induction false} CountAfterPlace(b: seq<int>, c: int, p: int)
    requires 0 <= c < |b| && b[c] != p
    ensures Count(b[c := p], p) == Count(b, p) + 1
    ensures Count(b[c := p], b[c]) + 1 == Count(b, b[c])
    ensures forall v :: v != p && v != b[c] ==> Count(b[c := p], v) == Count(b, v)
  {
    if c == 0 {
      assert b[c := p][1..] == b[1..];
    } else {
      assert b[c := p][1..] == b[1..][c - 1 := p];
      CountAfterPlace(b[1..], c - 1, p);
    }
  }

  /** On a board of empty and taken cells the three counts add up to its size. */
  lemma {:induction false} CountsAddUp(b: seq<int>)
    requires forall i :: 0 <= i < |b| ==> 0 <= b[i] <= 2
    ensures Count(b, 0) + Count(b, 1) + Count(b, 2) == |b|
  {
    if b != [] {
      CountsAddUp(b[1..]);
    }
  }

  /** A full board has no empty cell to count. */
  lemma {:induction false} FullHasNoEmptyCell(b: seq<int>)
    requires IsFull(b)
    ensures Count(b, Empty) == 0
  {
    if b != [] {
      FullHasNoEmptyCell(b[1..]);
    }
  }

  /** A value that occurs nowhere counts zero. */
  lemma {:induction false} AbsentCountsZero(b: seq<int>, v: int)
    requires forall i :: 0 <= i < |b| ==> b[i] != v
    ensures Count(b, v) == 0
  {
    if b != [] {
      AbsentCountsZero(b[1..], v);
    }
  }

  // ---------------------------------------------------------------------
  // The invariant and the moves
  // ---------------------------------------------------------------------

  /** The empty board is consistent with every state before the first move. */
  lemma EmptyBoardConsistent()
    ensures Consistent(New, EmptyBoard)
    ensures Consistent(WaitingForPlayerTwo, EmptyBoard)
    ensures Consistent(PlayerOneMove, EmptyBoard)
  {
    forall p, k | IsPlayer(p) && 0 <= k < LineCount
      ensures !Owns(EmptyBoard, k, p)
    {
      assert Line(EmptyBoard, k)[0] == Empty;
    }
    AbsentCountsZero(EmptyBoard, 1);
    AbsentCountsZero(EmptyBoard, 2);
    assert EmptyBoard[0] == Empty;
  }

  /**
   * A successful move writes the mover's id on the chosen cell, which was
   * empty, and leaves every other cell as it was.
   */
  lemma MoveChangesOnlyItsCell(s: GameState, b: seq<int>, p: int, c: int)
    requires ValidBoard(b)
    requires Move(s, b, p, c).Ok?
    ensures 0 <= c < CellCount && b[c] == Empty
    ensures Move(s, b, p, c).value.cells[c] == p
    ensures forall i :: 0 <= i < CellCount && i != c ==> Move(s, b, p, c).value.cells[i] == b[i]
  {
  }

  /**
   * After a successful move from a consistent game the state is the
   * opponent's turn (no line, board not full), or the mover has won with
   * the first full line in the engine's order (only the mover can), or it
   * is a stalemate (full board, no line).
   */
  lemma MoveOutcome(s: GameState, b: seq<int>, p: int, c: int)
    requires Consistent(s, b)
    requires Move(s, b, p, c).Ok?
    ensures var g := Move(s, b, p, c).value;
      || (g.state == NextTurn(p) && NoLine(g.cells) && !IsFull(g.cells))
      || (g.state == WinState(p) && Winner(g.cells) == p && HasLine(g.cells, p))
      || (g.state == Stalemate && IsFull(g.cells) && NoLine(g.cells))
  {
    var cells := b[c := p];
    WinnerHoldsFirstLine(cells);
    var w := Winner(cells);
    if w != Empty {
      assert NoLine(b);
      if w != p {
        NewLineBelongsToMover(b, c, p, w);
      }
    }
  }

  /**
   * After a successful move player one holds one cell more than player two
   * when player one moved, and as many when player two moved.
   */
  lemma MoveKeepsTurnParity(s: GameState, b: seq<int>, p: int, c: int)
    requires Consistent(s, b)
    requires Move(s, b, p, c).Ok?
    ensures Count(b[c := p], 1) == Count(b[c := p], 2) + (if p == 1 then 1 else 0)
  {
    CountAfterPlace(b, c, p);
  }

  /** Every successful move keeps the game consistent. */
  lemma MovePreservesConsistency(s: GameState, b: seq<int>, p: int, c: int)
    requires Consistent(s, b)
    requires Move(s, b, p, c).Ok?
    ensures Consistent(Move(s, b, p, c).value.state, Move(s, b, p, c).value.cells)
  {
    var g := Move(s, b, p, c).value;
    MoveOutcome(s, b, p, c);
    MoveKeepsTurnParity(s, b, p, c);
    NewLineBelongsToMover(b, c, p, Opponent(p));
    OutcomeIsConsistent(g.state, g.cells, p);
  }

  /**
   * A board of empty and player cells, where the mover `p` holds one cell
   * more than player two if p is player one and as many otherwise, and
   * where the opponent has no line, is consistent with each of the three
   * outcomes a move can have.
   */
  lemma OutcomeIsConsistent(s: GameState, b: seq<int>, p: int)
    requires ValidBoard(b) && IsPlayer(p) && !HasLine(b, Opponent(p))
    requires Count(b, 1) == Count(b, 2) + (if p == 1 then 1 else 0)
    requires || (s == NextTurn(p) && NoLine(b) && !IsFull(b))
             || (s == WinState(p) && HasLine(b, p))
             || (s == Stalemate && IsFull(b) && NoLine(b))
    ensures Consistent(s, b)
  {
    if s == Stalemate {
      // a full board holds five moves of player one and four of player two
      FullHasNoEmptyCell(b);
      CountsAddUp(b);
    }
  }

  /** In a terminal state every move fails, and with the state check first. */
  lemma TerminalStatesRejectMoves(s: GameState, b: seq<int>, p: int, c: int)
    requires ValidBoard(b) && s.IsOver()
    ensures Move(s, b, p, c) == Err(IllegalStateToExecuteMove)
  {
  }

  /**
   * Once both players have joined, a consistent game is over exactly when
   * no move can succeed any more.
   */
  lemma OverIffNoMoveSucceeds(s: GameState, b: seq<int>)
    requires Consistent(s, b) && s != New && s != WaitingForPlayerTwo
    ensures s.IsOver() <==> forall p, c :: Move(s, b, p, c).Err?
  {
    if !s.IsOver() {
      assert !IsFull(b);
      var c :| 0 <= c < |b| && b[c] == Empty;
      assert Move(s, b, Mover(s), c).Ok?;
    }
  }
}
