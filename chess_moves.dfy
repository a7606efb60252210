/**
 * A chess move generator for an empty board, driven by a per-piece rule:
 * a list of direction codes and a step count.  The board layout (an 8x8
 * grid of square labels) and the rule table are injected as values.
 */
module ChessMoves {

  /** A (row, column) pair; both parts lie in [0, 8) when the square is on the board. */
  datatype Coordinate = Coordinate(row: int, column: int)

  /** The movement rule of one piece type: direction codes, applied once each at `steps`. */
  datatype Rule = Rule(pieceActions: seq<string>, steps: int)

  /** Square labels, indexed as board[row][column]. */
  type Board = seq<seq<string>>

  /** The rule table, keyed by piece type. */
  type ChessRules = map<string, Rule>

  /** The "not found" / "unknown direction" coordinate. */
  const Sentinel := Coordinate(-1, -1)

  /** The eight direction codes the direction table knows. */
  const DirectionCodes: set<string> := {"HL", "HR", "VT", "VB", "UL", "UR", "DL", "DR"}

  predicate WellFormed(board: Board)
  {
    |board| == 8 && forall r :: 0 <= r < 8 ==> |board[r]| == 8
  }

  predicate InBoard(c: Coordinate)
  {
    0 <= c.row < 8 && 0 <= c.column < 8
  }

  /** Cell (a, b) comes strictly before cell (row, column) in row-major order. */
  predicate Before(a: int, b: int, row: int, column: int)
  {
    a < row || (a == row && b < column)
  }

  function Abs(x: int): nat
  {
    if x < 0 then -x else x
  }

  // ---------------------------------------------------------------------------
  // Direction table
  // ---------------------------------------------------------------------------

  /**
   * The unit step of each direction code, as (row delta, column delta):
   * H = horizontal (column only), V = vertical (row only), and the four
   * diagonals; T and U raise the row, B and D lower it, L lowers the column
   * and R raises it.
   */
  function UnitStep(action: string): (d: Coordinate)
    requires action in DirectionCodes
    ensures -1 <= d.row <= 1 && -1 <= d.column <= 1 && d != Coordinate(0, 0)
  {
    match action
    case "HL" => Coordinate(0, -1)
    case "HR" => Coordinate(0, 1)
    case "VT" => Coordinate(1, 0)
    case "VB" => Coordinate(-1, 0)
    case "UL" => Coordinate(1, -1)
    case "UR" => Coordinate(1, 1)
    case "DL" => Coordinate(-1, -1)
    case "DR" => Coordinate(-1, 1)
  }

  /** The code whose unit step is the reverse of `action`'s. */
  function Opposite(action: string): (o: string)
    requires action in DirectionCodes
    ensures o in DirectionCodes
    ensures UnitStep(o) == Coordinate(-UnitStep(action).row, -UnitStep(action).column)
  {
    match action
    case "HL" => "HR"
    case "HR" => "HL"
    case "VT" => "VB"
    case "VB" => "VT"
    case "UL" => "DR"
    case "DR" => "UL"
    case "UR" => "DL"
    case "DL" => "UR"
  }

  /**
   * Moves `current` by `steps` in the direction named by `action`; an unknown
   * code yields the sentinel, whatever the origin and step count.
   */
  function PieceDirection(action: string, steps: int, current: Coordinate): (r: Coordinate)
    ensures action in DirectionCodes ==>
      r == Coordinate(current.row + steps * UnitStep(action).row,
                      current.column + steps * UnitStep(action).column)
    ensures action !in DirectionCodes ==> r == Sentinel
  {
    match action
    case "HL" => Coordinate(current.row, current.column - steps)
    case "HR" => Coordinate(current.row, current.column + steps)
    case "VT" => Coordinate(current.row + steps, current.column)
    case "VB" => Coordinate(current.row - steps, current.column)
    case "UL" => Coordinate(current.row + steps, current.column - steps)
    case "UR" => Coordinate(current.row + steps, current.column + steps)
    case "DL" => Coordinate(current.row - steps, current.column - steps)
    case "DR" => Coordinate(current.row - steps, current.column + steps)
    case _ => Sentinel
  }

  /** Opposite codes undo each other at the same step count. */
  lemma OppositeUndoes(action: string, steps: int, c: Coordinate)
    requires action in DirectionCodes
    ensures PieceDirection(Opposite(action), steps, PieceDirection(action, steps, c)) == c
  {
  }

  /** Moving s1 then s2 steps in one known direction is moving s1 + s2 steps. */
  lemma StepsCompose(action: string, s1: int, s2: int, c: Coordinate)
    requires action in DirectionCodes
    ensures PieceDirection(action, s2, PieceDirection(action, s1, c)) == PieceDirection(action, s1 + s2, c)
  {
  }

  /**
   * A known code moves along the origin's rank, file or one of its two
   * diagonals, and ends exactly |steps| squares away (king distance).
   */
  lemma MovesAlongLine(action: string, steps: int, c: Coordinate)
    requires action in DirectionCodes
    ensures var r := PieceDirection(action, steps, c);
      var dr, dc := r.row - c.row, r.column - c.column;
      (dr == 0 || dc == 0 || dr == dc || dr == -dc) &&
      (if Abs(dr) < Abs(dc) then Abs(dc) else Abs(dr)) == Abs(steps)
  {
  }

  /**
   * From the sentinel origin, only UR with 1..8 steps and DL with -8..-1
   * steps land on the board; every other code and step count leaves it.
   */
  lemma SentinelOrigin(action: string, steps: int)
    ensures InBoard(PieceDirection(action, steps, Sentinel)) <==>
      (action == "UR" && 1 <= steps <= 8) || (action == "DL" && -8 <= steps <= -1)
  {
  }

  // ---------------------------------------------------------------------------
  // Label <-> coordinate
  // ---------------------------------------------------------------------------

  /** Row-major scan from (row, column): the first matching cell, or the sentinel. */
  function Scan(board: Board, str: string, row: int, column: int): Coordinate
    requires WellFormed(board)
    requires 0 <= row <= 8 && 0 <= column <= 8
    decreases 8 - row, 8 - column
  {
    if row == 8 then Sentinel
    else if column == 8 then Scan(board, str, row + 1, 0)
    else if board[row][column] == str then Coordinate(row, column)
    else Scan(board, str, row, column + 1)
  }

  lemma {:induction false} ScanFacts(board: Board, str: string, row: int, column: int)
    requires WellFormed(board)
    requires 0 <= row <= 8 && 0 <= column <= 8
    decreases 8 - row, 8 - column
    ensures var r := Scan(board, str, row, column);
      (r == Sentinel <==>
        forall a, b :: 0 <= a < 8 && 0 <= b < 8 && !Before(a, b, row, column) ==> board[a][b] != str) &&
      (r != Sentinel ==>
        InBoard(r) && board[r.row][r.column] == str && !Before(r.row, r.column, row, column) &&
        forall a, b :: 0 <= a < 8 && 0 <= b < 8 && !Before(a, b, row, column) && Before(a, b, r.row, r.column) ==>
          board[a][b] != str)
  {
    if row == 8 {
    } else if column == 8 {
      ScanFacts(board, str, row + 1, 0);
    } else if board[row][column] == str {
    } else {
      ScanFacts(board, str, row, column + 1);
    }
  }

  /**
   * The coordinate of label `str`: the first matching cell in row-major
   * order, or the sentinel exactly when no cell carries the label.
   */
  function LabelCoordinate(board: Board, str: string): (c: Coordinate)
    requires WellFormed(board)
    ensures c == Sentinel <==> forall a, b :: 0 <= a < 8 && 0 <= b < 8 ==> board[a][b] != str
    ensures c != Sentinel ==> InBoard(c) && board[c.row][c.column] == str
    ensures c != Sentinel ==>
      forall a, b :: 0 <= a < 8 && 0 <= b < 8 && Before(a, b, c.row, c.column) ==> board[a][b] != str
  {
    ScanFacts(board, str, 0, 0);
    Scan(board, str, 0, 0)
  }

  /** The label scan: a row-major scan with two nested loops and an early return. */
  method StringToCoordinates(board: Board, str: string) returns (c: Coordinate)
    requires WellFormed(board)
    ensures c == LabelCoordinate(board, str)
  {
    var row := 0;
    while row < 8
      invariant 0 <= row <= 8
      invariant Scan(board, str, row, 0) == LabelCoordinate(board, str)
    {
      var column := 0;
      while column < 8
        invariant 0 <= column <= 8
        invariant Scan(board, str, row, column) == LabelCoordinate(board, str)
      {
        if str == board[row][column] {
          return Coordinate(row, column);
        }
        column := column + 1;
      }
      row := row + 1;
    }
    return Sentinel;
  }

  /**
   * The label at an on-board coordinate; looking that label up again finds
   * a cell carrying it no later than `c` in row-major order.
   */
  function CoordinatesToString(board: Board, c: Coordinate): (s: string)
    requires WellFormed(board) && InBoard(c)
    ensures var back := LabelCoordinate(board, s);
      InBoard(back) && board[back.row][back.column] == s && !Before(c.row, c.column, back.row, back.column)
  {
    board[c.row][c.column]
  }

  /** Every label present on the board survives label -> coordinate -> label. */
  lemma LabelRoundTrip(board: Board, str: string)
    requires WellFormed(board)
    requires LabelCoordinate(board, str) != Sentinel
    ensures CoordinatesToString(board, LabelCoordinate(board, str)) == str
    ensures LabelCoordinate(board, CoordinatesToString(board, LabelCoordinate(board, str))) == LabelCoordinate(board, str)
  {
  }

  /** No label appears on two cells. */
  predicate DistinctLabels(board: Board)
    requires WellFormed(board)
  {
    forall a, b, a', b' ::
      0 <= a < 8 && 0 <= b < 8 && 0 <= a' < 8 && 0 <= b' < 8 && (a, b) != (a', b') ==>
        board[a][b] != board[a'][b']
  }

  /** On a board with distinct labels, coordinate -> label -> coordinate is the identity. */
  lemma CoordinateRoundTrip(board: Board, c: Coordinate)
    requires WellFormed(board) && DistinctLabels(board) && InBoard(c)
    ensures LabelCoordinate(board, CoordinatesToString(board, c)) == c
  {
  }

  // ---------------------------------------------------------------------------
  // Rule lookup and move expansion
  // ---------------------------------------------------------------------------

  /** The rule of a piece type; an unknown piece type gets the zero rule. */
  function RuleFor(rules: ChessRules, chessPiece: string): Rule
  {
    if chessPiece in rules then rules[chessPiece] else Rule([], 0)
  }

  /** Every action of `rule`, applied at `rule.steps` from `start`, stays on the board. */
  predicate MovesOnBoard(rule: Rule, start: Coordinate)
  {
    forall i :: 0 <= i < |rule.pieceActions| ==>
      InBoard(PieceDirection(rule.pieceActions[i], rule.steps, start))
  }

  /**
   * The moves of `chessPiece` from square `location`: one label per action of
   * its rule, in the rule's order, each the square reached by applying that
   * action once at the rule's step count from the start square.
   */
  method GetChessMoves(board: Board, rules: ChessRules, chessPiece: string, location: string)
    returns (moves: seq<string>)
    requires WellFormed(board)
    requires MovesOnBoard(RuleFor(rules, chessPiece), LabelCoordinate(board, location))
    ensures var rule := RuleFor(rules, chessPiece);
      |moves| == |rule.pieceActions| &&
      forall i :: 0 <= i < |moves| ==>
        moves[i] == CoordinatesToString(board,
          PieceDirection(rule.pieceActions[i], rule.steps, LabelCoordinate(board, location)))
    ensures chessPiece !in rules ==> moves == []
    ensures forall i :: 0 <= i < |moves| ==> LabelCoordinate(board, moves[i]) != Sentinel
  {
    moves := [];
    var rule := RuleFor(rules, chessPiece);
    var currentCoordinate := StringToCoordinates(board, location);
    for k := 0 to |rule.pieceActions|
      invariant |moves| == k
      invariant forall i :: 0 <= i < k ==>
        moves[i] == CoordinatesToString(board, PieceDirection(rule.pieceActions[i], rule.steps, currentCoordinate))
    {
      var coordinateAfterMove := PieceDirection(rule.pieceActions[k], rule.steps, currentCoordinate);
      var str := CoordinatesToString(board, coordinateAfterMove);
      moves := moves + [str];
    }
    forall i | 0 <= i < |moves|
      ensures LabelCoordinate(board, moves[i]) != Sentinel
    {
      var c := PieceDirection(rule.pieceActions[i], rule.steps, currentCoordinate);
      assert moves[i] == CoordinatesToString(board, c);
    }
  }
}
