# Empty-board chess move generator, in Dafny

This project models `main.go` of a small chess move generator for an empty
board. A piece type maps to a rule: a list of direction codes (HL, HR, VT,
VB, UL, UR, DL, DR) and a step count. The generator resolves the start
square's label to a `(row, column)` coordinate on an 8×8 board-label grid.
It applies each direction code of the rule once, at the rule's step count,
and returns the label of every resulting square, in rule order.

The model is one module, `ChessMoves` (`chess_moves.dfy`):

- **Direction table.** `PieceDirection` is a pure function. It gives the
  translation for each of the eight codes and the sentinel `(-1, -1)` for
  any other code. `UnitStep` is a reference table of the eight unit vectors,
  and `Opposite` pairs each code with its reverse.
- **Label to coordinate.** `StringToCoordinates` is a method with the
  source's nested row and column loops and its early return. It is proved
  equal to the specification function `LabelCoordinate`. That function
  gives the first matching cell in row-major order, or the sentinel exactly
  when the label is absent.
- **Coordinate to label.** `CoordinatesToString` indexes the grid. It
  requires an on-board coordinate, because the Go index expression panics
  otherwise.
- **Move expander.** `GetChessMoves` is a method that builds the move list
  with a loop, as the source appends to a slice. The board grid and the
  rule table are parameters instead of JSON files. `RuleFor` models the Go
  map lookup `chessRules[chessPiece]`: an unknown piece type gets the zero
  rule, which has no actions and zero steps.

Go's `int` is 64 bits wide and the model's `int` is unbounded. This changes
no result on any input where Go does not panic. The start coordinate's parts
lie in [-1, 7], and each part of a move is one addition or subtraction of
the step count. Such a result can wrap only near ±2^63, which is far off
the board, so it panics in Go and is excluded by `MovesOnBoard` in the model.

The source converts every computed coordinate to a label without a bounds
check. So `GetChessMoves` requires every computed coordinate to be on the
board (`MovesOnBoard`).

The code has no bounds filter. A start label that is not on the board
therefore does not guarantee an empty move list. The start resolves to
`(-1, -1)`, and from there UR with 1 to 8 steps or DL with -8 to -1 steps
lands on the board. `SentinelOrigin` states exactly when this happens. The
model follows the code here.

## Model

| member | source | states |
|---|---|---|
| `ChessMoves.PieceDirection` | main.go:86-119 | each of the eight codes moves the origin by `steps` times its fixed unit vector (HL: column − steps, VT: row + steps, DR: row − steps and column + steps, …); any other code gives the sentinel `(-1, -1)` whatever the origin and step count |
| `ChessMoves.OppositeUndoes` | main.go:88-115 | HL/HR, VT/VB, UL/DR and UR/DL undo each other at the same step count: applying one and then the other returns the origin |
| `ChessMoves.StepsCompose` | main.go:88-115 | for a known code, moving `s1` steps then `s2` steps equals moving `s1 + s2` steps |
| `ChessMoves.MovesAlongLine` | main.go:88-115 | a known code ends on the origin's rank, file or one of its diagonals, exactly abs(steps) squares away in king distance |
| `ChessMoves.SentinelOrigin` | main.go:86-119 | from the sentinel `(-1, -1)`, the result is on the board if and only if the code is UR with 1..8 steps or DL with -8..-1 steps |
| `ChessMoves.ScanFacts` | main.go:71-78 | a row-major scan from any cell returns the sentinel exactly when no later cell has the label; otherwise it returns an on-board cell at or after the start that has the label, with no matching cell between the start and it |
| `ChessMoves.LabelCoordinate` | main.go:69-79 | the label's coordinate is the sentinel if and only if no cell of the 8×8 grid has the label; otherwise it is on the board, its cell has the label, and no earlier cell in row-major order has it |
| `ChessMoves.StringToCoordinates` | main.go:69-79 | the nested loop with early return gives exactly `LabelCoordinate`: the first matching cell, or the sentinel |
| `ChessMoves.CoordinatesToString` | main.go:81-84 | requires both row and column in [0,8); looking the returned label up again gives an on-board cell with that label, at or before the given coordinate in row-major order |
| `ChessMoves.LabelRoundTrip` | main.go:69-84 | for a label present in the grid, coordinate-to-label of its coordinate gives the label back, and that coordinate is stable under a second round trip |
| `ChessMoves.CoordinateRoundTrip` | main.go:69-84 | on a grid with pairwise distinct labels, label-to-coordinate of the label at any on-board coordinate gives that coordinate back |
| `ChessMoves.GetChessMoves` | main.go:36-53 | one label per action of the piece's rule, in rule order; element i is the label of `PieceDirection(action i, steps, start)`, where start is the start label's coordinate; the rule comes from `RuleFor`, so an unknown piece type gets the zero rule and no moves; every returned label is on the board |

## Left out

- File and JSON handling (`readJSON`, `readBundleConfig`'s file read and `json.Unmarshal`, `getBoardMatrix`, main.go:48-67): the board grid and the rule table are parameters. Only the map lookup in `readBundleConfig` is modelled, as `RuleFor`.
- `check` (main.go:30-34): it only panics on an I/O error, and there is no I/O in the model.
- `main` (main.go:25-28): a driver that prints one hard-coded query.
- Boards that are not 8×8: the model requires exactly 8 rows of 8 labels (`WellFormed`). In Go, only the label scan stops at 8 rows and 8 columns. Coordinate-to-label reads any cell inside the slices, so on a wider or taller grid Go can return a label at row or column 8 or beyond, which the model excludes. A smaller grid panics only when a missing cell is actually indexed: the scan returns without a panic when a match comes before the first missing cell.
- Panics on an off-board result: `GetChessMoves` requires every computed coordinate to be on the board, instead of modelling the index panic.
- Determinism (calling the generator twice with the same inputs gives the same result) holds because every member is a function or a method without state. No lemma states it separately.
