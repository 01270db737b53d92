/**
 * The Othello rules shared by both browser engines and the server's legality
 * check, stated on board values. A board is eight rows of eight cells,
 * indexed `board[x][y]`; a move at (x, y) walks outward in the eight compass
 * directions looking for a run of opposing chips closed by a chip of the
 * side to move.
 *
 * The functions here follow the engines' loops step by step (so the loops can
 * be proved against them); the lemmas then say what they mean: which
 * directions capture, which cells the flip list holds, how many times the
 * origin occurs in it, and what a move does to the board and to the turn.
 */
module OthelloRules {

  /** A cell of the board: `Chips` in the engine, `CellValue` in the older files. */
  datatype Chip = Empty | White | Black

  /** A board position `[x, y]`. */
  type Coord = (int, int)

  /** A board as a value: row `x`, column `y`. */
  type Grid = seq<seq<Chip>>

  predicate IsGrid(g: Grid)
  {
    |g| == 8 && forall i :: 0 <= i < 8 ==> |g[i]| == 8
  }

  predicate InBoard(i: int, j: int)
  {
    0 <= i < 8 && 0 <= j < 8
  }

  /** The eight compass directions, in the order the engines visit them. */
  const Directions: seq<Coord> :=
    [(-1, -1), (-1, 0), (-1, 1), (0, -1), (0, 1), (1, -1), (1, 0), (1, 1)]

  predicate IsDirection(dx: int, dy: int)
  {
    -1 <= dx <= 1 && -1 <= dy <= 1 && (dx != 0 || dy != 0)
  }

  lemma DirectionsAreDirections()
    ensures |Directions| == 8
    ensures forall k :: 0 <= k < 8 ==> IsDirection(Directions[k].0, Directions[k].1)
  {
  }

  /** The colour that moves after `c`: `toggleTurn`'s `next` (anything but BLACK gives BLACK). */
  function Other(c: Chip): (r: Chip)
    ensures r != Empty
    ensures c != Empty ==> r != c
  {
    if c == Black then White else Black
  }

  /** A chip the walk steps over: neither EMPTY (which stops it) nor `turn` (which closes it). */
  predicate IsOpponent(c: Chip, turn: Chip)
  {
    c != Empty && c != turn
  }

  /** How many more steps along `di` stay on the board; a termination measure for the walks. */
  function Steps(i: int, di: int): int
  {
    if di > 0 then 8 - i else if di < 0 then i + 1 else 0
  }

  /** The cell `n` steps from (i, j) along (dx, dy). */
  function Offset(i: int, j: int, dx: int, dy: int, n: nat): Coord
  {
    if n == 0 then (i, j)
    else
      var p := Offset(i, j, dx, dy, n - 1);
      (p.0 + dx, p.1 + dy)
  }

  /** Number of consecutive opposing chips starting at (i, j), walking along (dx, dy). */
  function RunLength(g: Grid, i: int, j: int, dx: int, dy: int, turn: Chip): nat
    requires IsGrid(g) && IsDirection(dx, dy)
    decreases Steps(i, dx) + Steps(j, dy)
  {
    if InBoard(i, j) && IsOpponent(g[i][j], turn) then 1 + RunLength(g, i + dx, j + dy, dx, dy, turn)
    else 0
  }

  /** The cell at which that walk stops (it may be off the board). */
  function RunEnd(g: Grid, i: int, j: int, dx: int, dy: int, turn: Chip): Coord
    requires IsGrid(g) && IsDirection(dx, dy)
    decreases Steps(i, dx) + Steps(j, dy)
  {
    if InBoard(i, j) && IsOpponent(g[i][j], turn) then RunEnd(g, i + dx, j + dy, dx, dy, turn)
    else (i, j)
  }

  /**
   * The walk from (x, y) along (dx, dy) captures: at least one opposing chip,
   * then, still on the board, a chip of colour `turn` (an EMPTY cell stops the
   * walk before it is compared with `turn`).
   */
  predicate DirCaptures(g: Grid, x: int, y: int, dx: int, dy: int, turn: Chip)
    requires IsGrid(g) && IsDirection(dx, dy)
  {
    var n := RunLength(g, x + dx, y + dy, dx, dy, turn);
    var e := RunEnd(g, x + dx, y + dy, dx, dy, turn);
    n > 0 && InBoard(e.0, e.1) && g[e.0][e.1] != Empty && g[e.0][e.1] == turn
  }

  /** The cells pushed by the walk-back loop: `m` steps back from (i, j), each cell pushed after stepping. */
  function WalkBack(i: int, j: int, dx: int, dy: int, m: nat): seq<Coord>
    decreases m
  {
    if m == 0 then [] else [(i - dx, j - dy)] + WalkBack(i - dx, j - dy, dx, dy, m - 1)
  }

  /** What one direction adds to `getBeetweemChips`'s result. */
  function DirFlips(g: Grid, x: int, y: int, dx: int, dy: int, turn: Chip): seq<Coord>
    requires IsGrid(g) && IsDirection(dx, dy)
  {
    if DirCaptures(g, x, y, dx, dy, turn) then
      var e := RunEnd(g, x + dx, y + dy, dx, dy, turn);
      WalkBack(e.0, e.1, dx, dy, RunLength(g, x + dx, y + dy, dx, dy, turn) + 1)
    else []
  }

  /** The contributions of the first `k` directions, in order. */
  function FlipsUpTo(g: Grid, x: int, y: int, turn: Chip, k: nat): seq<Coord>
    requires IsGrid(g) && k <= 8
  {
    if k == 0 then []
    else
      DirectionsAreDirections();
      FlipsUpTo(g, x, y, turn, k - 1) + DirFlips(g, x, y, Directions[k - 1].0, Directions[k - 1].1, turn)
  }

  /**
   * `getBeetweemChips([x, y], turn)`: nothing when the target is not an EMPTY
   * cell (a column outside the board reads `undefined`, which is not EMPTY),
   * otherwise every direction's contribution.
   */
  function Flips(g: Grid, x: int, y: int, turn: Chip): seq<Coord>
    requires IsGrid(g) && 0 <= x < 8
  {
    if !(0 <= y < 8) || g[x][y] != Empty then [] else FlipsUpTo(g, x, y, turn, 8)
  }

  /** `validateMove([x, y], turn)`. */
  predicate Legal(g: Grid, x: int, y: int, turn: Chip)
    requires IsGrid(g) && 0 <= x < 8
  {
    Flips(g, x, y, turn) != []
  }

  /** Some EMPTY cell of the board is a legal move for `c`: what `hasValidMovements(c)` searches for. */
  ghost predicate HasLegal(g: Grid, c: Chip)
    requires IsGrid(g)
  {
    exists i, j :: InBoard(i, j) && g[i][j] == Empty && Legal(g, i, j, c)
  }

  /** The board with every listed cell set to `c` and every other cell as it was. */
  function Place(g: Grid, cells: seq<Coord>, c: Chip): (r: Grid)
    requires IsGrid(g)
    ensures IsGrid(r)
    ensures forall i, j :: InBoard(i, j) ==> r[i][j] == if (i, j) in cells then c else g[i][j]
  {
    seq(8, i requires 0 <= i < 8 => seq(8, j requires 0 <= j < 8 => if (i, j) in cells then c else g[i][j]))
  }

  /**
   * Board and turn after `makeMove([x, y])` by `turn`: rejected (nothing
   * changes) unless the move list `[[x, y], ...flips]` has at least two
   * entries; otherwise every listed cell takes `turn`'s colour and the turn
   * passes to the other colour only if that colour then has a legal move.
   */
  ghost function MoveOutcome(g: Grid, x: int, y: int, turn: Chip): (Grid, Chip)
    requires IsGrid(g) && 0 <= x < 8
  {
    var movements := [(x, y)] + Flips(g, x, y, turn);
    if |movements| < 2 then (g, turn)
    else
      var after := Place(g, movements, turn);
      (after, if HasLegal(after, Other(turn)) then Other(turn) else turn)
  }

  /** The canonical start: WHITE at (3,3) and (4,4), BLACK at (3,4) and (4,3), the rest EMPTY. */
  function StartCell(i: int, j: int): Chip
  {
    if (i, j) == (3, 3) || (i, j) == (4, 4) then White
    else if (i, j) == (3, 4) || (i, j) == (4, 3) then Black
    else Empty
  }

  /** The board the engines start from. */
  function StartGrid(): (g: Grid)
    ensures IsGrid(g)
    ensures forall i, j :: InBoard(i, j) ==> g[i][j] == StartCell(i, j)
  {
    seq(8, i => seq(8, j => StartCell(i, j)))
  }

  /** Number of non-EMPTY cells. */
  function RowCount(row: seq<Chip>): nat
  {
    if row == [] then 0 else (if row[0] != Empty then 1 else 0) + RowCount(row[1..])
  }

  function Occupied(g: Grid): nat
  {
    if g == [] then 0 else RowCount(g[0]) + Occupied(g[1..])
  }

  /** Two boards that agree cell by cell are the same board. */
  lemma GridExt(a: Grid, b: Grid)
    requires IsGrid(a) && IsGrid(b)
    requires forall i, j :: InBoard(i, j) ==> a[i][j] == b[i][j]
    ensures a == b
  {
    forall i | 0 <= i < 8
      ensures a[i] == b[i]
    {
      assert forall j :: 0 <= j < 8 ==> a[i][j] == b[i][j];
    }
  }

  // ---------------------------------------------------------------------------
  // The walk

  lemma {:induction false} OffsetShift(i: int, j: int, dx: int, dy: int, n: nat)
    ensures Offset(i + dx, j + dy, dx, dy, n) == Offset(i, j, dx, dy, n + 1)
  {
    if n > 0 {
      OffsetShift(i, j, dx, dy, n - 1);
    }
  }

  /** The walk never comes back to its origin: each step uses up at least one of the measure. */
  lemma {:induction false} OffsetLeaves(x: int, y: int, dx: int, dy: int, m: nat)
    requires IsDirection(dx, dy)
    ensures Steps(Offset(x, y, dx, dy, m).0, dx) + Steps(Offset(x, y, dx, dy, m).1, dy) <= Steps(x, dx) + Steps(y, dy) - m
    ensures m >= 1 ==> Offset(x, y, dx, dy, m) != (x, y)
  {
    if m > 0 {
      OffsetLeaves(x, y, dx, dy, m - 1);
    }
  }

  /** An opposing chip on the board at `c`: a cell the walk steps over. */
  predicate OppAt(g: Grid, c: Coord, turn: Chip)
    requires IsGrid(g)
  {
    InBoard(c.0, c.1) && IsOpponent(g[c.0][c.1], turn)
  }

  /** The walk stops `RunLength` steps out. */
  lemma {:induction false} RunEndIsOffset(g: Grid, i: int, j: int, dx: int, dy: int, turn: Chip)
    requires IsGrid(g) && IsDirection(dx, dy)
    ensures RunEnd(g, i, j, dx, dy, turn) == Offset(i, j, dx, dy, RunLength(g, i, j, dx, dy, turn))
    decreases Steps(i, dx) + Steps(j, dy)
  {
    if OppAt(g, (i, j), turn) {
      RunEndIsOffset(g, i + dx, j + dy, dx, dy, turn);
      OffsetShift(i, j, dx, dy, RunLength(g, i + dx, j + dy, dx, dy, turn));
    }
  }

  /** RunLength and RunEnd describe the walk: opposing chips at steps 0..n-1, then a cell that is not one. */
  lemma {:induction false} RunFacts(g: Grid, i: int, j: int, dx: int, dy: int, turn: Chip)
    requires IsGrid(g) && IsDirection(dx, dy)
    ensures RunEnd(g, i, j, dx, dy, turn) == Offset(i, j, dx, dy, RunLength(g, i, j, dx, dy, turn))
    ensures forall m {:trigger OppAt(g, Offset(i, j, dx, dy, m), turn)} :: 0 <= m < RunLength(g, i, j, dx, dy, turn) ==> OppAt(g, Offset(i, j, dx, dy, m), turn)
    ensures !OppAt(g, RunEnd(g, i, j, dx, dy, turn), turn)
    decreases Steps(i, dx) + Steps(j, dy)
  {
    RunEndIsOffset(g, i, j, dx, dy, turn);
    if OppAt(g, (i, j), turn) {
      var i', j' := i + dx, j + dy;
      RunFacts(g, i', j', dx, dy, turn);
      forall m | 0 <= m < RunLength(g, i, j, dx, dy, turn)
        ensures OppAt(g, Offset(i, j, dx, dy, m), turn)
      {
        if m > 0 {
          OffsetShift(i, j, dx, dy, m - 1);
          assert Offset(i', j', dx, dy, m - 1) == Offset(i, j, dx, dy, m);
        }
      }
    }
  }

  /** Conversely, a run of `n` opposing chips closed by a cell that is not one has length `n`. */
  lemma {:induction false} RunUnique(g: Grid, i: int, j: int, dx: int, dy: int, turn: Chip, n: nat)
    requires IsGrid(g) && IsDirection(dx, dy)
    requires forall m {:trigger OppAt(g, Offset(i, j, dx, dy, m), turn)} :: 0 <= m < n ==> OppAt(g, Offset(i, j, dx, dy, m), turn)
    requires !OppAt(g, Offset(i, j, dx, dy, n), turn)
    ensures RunLength(g, i, j, dx, dy, turn) == n
    decreases n
  {
    assert Offset(i, j, dx, dy, 0) == (i, j);
    if n > 0 {
      assert OppAt(g, Offset(i, j, dx, dy, 0), turn);
      var i', j' := i + dx, j + dy;
      forall m | 0 <= m < n - 1
        ensures OppAt(g, Offset(i', j', dx, dy, m), turn)
      {
        OffsetShift(i, j, dx, dy, m);
        assert OppAt(g, Offset(i, j, dx, dy, m + 1), turn);
      }
      OffsetShift(i, j, dx, dy, n - 1);
      RunUnique(g, i', j', dx, dy, turn, n - 1);
    }
  }

  /**
   * The declarative reading of a capture along (dx, dy): the cells 1..n
   * steps out are on the board and hold opposing chips, and the cell n+1
   * steps out is on the board and holds `turn`, which is a colour.
   */
  ghost predicate CapturesAlong(g: Grid, x: int, y: int, dx: int, dy: int, turn: Chip, n: nat)
    requires IsGrid(g)
  {
    && n >= 1
    && (forall m {:trigger OppAt(g, Offset(x, y, dx, dy, m), turn)} :: 1 <= m <= n ==> OppAt(g, Offset(x, y, dx, dy, m), turn))
    && var e := Offset(x, y, dx, dy, n + 1);
       InBoard(e.0, e.1) && turn != Empty && g[e.0][e.1] == turn
  }

  /** A direction captures exactly when some run length `n` satisfies the declarative reading; `n` is the walk's run. */
  lemma DirCapturesIff(g: Grid, x: int, y: int, dx: int, dy: int, turn: Chip)
    requires IsGrid(g) && IsDirection(dx, dy)
    ensures DirCaptures(g, x, y, dx, dy, turn) <==> exists n: nat :: CapturesAlong(g, x, y, dx, dy, turn, n)
    ensures forall n: nat :: CapturesAlong(g, x, y, dx, dy, turn, n) ==> n == RunLength(g, x + dx, y + dy, dx, dy, turn)
  {
    var i, j := x + dx, y + dy;
    var n := RunLength(g, i, j, dx, dy, turn);
    RunFacts(g, i, j, dx, dy, turn);
    OffsetShift(x, y, dx, dy, n);
    if DirCaptures(g, x, y, dx, dy, turn) {
      forall m | 1 <= m <= n
        ensures OppAt(g, Offset(x, y, dx, dy, m), turn)
      {
        OffsetShift(x, y, dx, dy, m - 1);
        assert Offset(i, j, dx, dy, m - 1) == Offset(x, y, dx, dy, m);
      }
      assert CapturesAlong(g, x, y, dx, dy, turn, n);
    }
    forall k: nat | CapturesAlong(g, x, y, dx, dy, turn, k)
      ensures k == n && DirCaptures(g, x, y, dx, dy, turn)
    {
      forall m | 0 <= m < k
        ensures OppAt(g, Offset(i, j, dx, dy, m), turn)
      {
        OffsetShift(x, y, dx, dy, m);
        assert OppAt(g, Offset(x, y, dx, dy, m + 1), turn);
      }
      OffsetShift(x, y, dx, dy, k);
      RunUnique(g, i, j, dx, dy, turn, k);
    }
  }

  /** The walk-back from the cell `m` steps out pushes the cells m-1, m-2, ..., 0 steps out. */
  lemma {:induction false} WalkBackAt(x: int, y: int, dx: int, dy: int, m: nat)
    ensures var e := Offset(x, y, dx, dy, m); |WalkBack(e.0, e.1, dx, dy, m)| == m
    ensures var e := Offset(x, y, dx, dy, m);
      forall k :: 0 <= k < m ==> WalkBack(e.0, e.1, dx, dy, m)[k] == Offset(x, y, dx, dy, m - 1 - k)
  {
    if m > 0 {
      WalkBackAt(x, y, dx, dy, m - 1);
    }
  }

  /** The same, counted from the run's length `n`: n + 1 cells, the last one the origin. */
  lemma WalkBackRun(x: int, y: int, dx: int, dy: int, n: nat)
    ensures var e := Offset(x, y, dx, dy, n + 1);
      var w := WalkBack(e.0, e.1, dx, dy, n + 1);
      |w| == n + 1 && forall k :: 0 <= k <= n ==> w[k] == Offset(x, y, dx, dy, n - k)
  {
    WalkBackAt(x, y, dx, dy, n + 1);
  }

  /** A capturing direction walks back from the cell one past its run. */
  lemma DirFlipsIsWalk(g: Grid, x: int, y: int, dx: int, dy: int, turn: Chip)
    requires IsGrid(g) && IsDirection(dx, dy) && DirCaptures(g, x, y, dx, dy, turn)
    ensures var n := RunLength(g, x + dx, y + dy, dx, dy, turn);
      var e := Offset(x, y, dx, dy, n + 1);
      DirFlips(g, x, y, dx, dy, turn) == WalkBack(e.0, e.1, dx, dy, n + 1)
  {
    RunEndIsOffset(g, x + dx, y + dy, dx, dy, turn);
    OffsetShift(x, y, dx, dy, RunLength(g, x + dx, y + dy, dx, dy, turn));
  }

  /**
   * A capturing direction with run length `n` contributes n + 1 cells: the
   * run from its far end inwards, then the origin (x, y) itself.
   */
  lemma {:induction false} DirFlipsShape(g: Grid, x: int, y: int, dx: int, dy: int, turn: Chip)
    requires IsGrid(g) && IsDirection(dx, dy)
    ensures !DirCaptures(g, x, y, dx, dy, turn) ==> DirFlips(g, x, y, dx, dy, turn) == []
    ensures DirCaptures(g, x, y, dx, dy, turn) ==>
      var n := RunLength(g, x + dx, y + dy, dx, dy, turn);
      var f := DirFlips(g, x, y, dx, dy, turn);
      && |f| == n + 1
      && (forall k :: 0 <= k <= n ==> f[k] == Offset(x, y, dx, dy, n - k))
      && f[n] == (x, y)
  {
    if DirCaptures(g, x, y, dx, dy, turn) {
      DirFlipsRun(g, x, y, dx, dy, turn);
    }
  }

  /** The capturing case of DirFlipsShape. */
  lemma {:induction false} DirFlipsRun(g: Grid, x: int, y: int, dx: int, dy: int, turn: Chip)
    requires IsGrid(g) && IsDirection(dx, dy) && DirCaptures(g, x, y, dx, dy, turn)
    ensures var n := RunLength(g, x + dx, y + dy, dx, dy, turn);
      var f := DirFlips(g, x, y, dx, dy, turn);
      |f| == n + 1 && (forall k :: 0 <= k <= n ==> f[k] == Offset(x, y, dx, dy, n - k)) && f[n] == (x, y)
  {
    DirFlipsIsWalk(g, x, y, dx, dy, turn);
    WalkBackRun(x, y, dx, dy, RunLength(g, x + dx, y + dy, dx, dy, turn));
  }

  /** Every cell a direction contributes is on the board; all but the origin hold opposing chips and differ from it. */
  lemma DirFlipsCells(g: Grid, x: int, y: int, dx: int, dy: int, turn: Chip)
    requires IsGrid(g) && IsDirection(dx, dy) && InBoard(x, y)
    ensures var f := DirFlips(g, x, y, dx, dy, turn);
      forall c :: c in f ==> InBoard(c.0, c.1) && (c == (x, y) || IsOpponent(g[c.0][c.1], turn))
    ensures var f := DirFlips(g, x, y, dx, dy, turn);
      f != [] ==> f[|f| - 1] == (x, y) && (x, y) !in f[..|f| - 1]
  {
    var f := DirFlips(g, x, y, dx, dy, turn);
    DirFlipsShape(g, x, y, dx, dy, turn);
    if f != [] {
      var n := RunLength(g, x + dx, y + dy, dx, dy, turn);
      RunFacts(g, x + dx, y + dy, dx, dy, turn);
      forall k | 0 <= k < n
        ensures InBoard(f[k].0, f[k].1) && IsOpponent(g[f[k].0][f[k].1], turn) && f[k] != (x, y)
      {
        OffsetShift(x, y, dx, dy, n - k - 1);
        assert OppAt(g, Offset(x + dx, y + dy, dx, dy, n - k - 1), turn);
        assert f[k] == Offset(x, y, dx, dy, n - k);
        OffsetLeaves(x, y, dx, dy, n - k);
      }
      forall c | c in f
        ensures InBoard(c.0, c.1) && (c == (x, y) || IsOpponent(g[c.0][c.1], turn))
      {
        var k :| 0 <= k < |f| && f[k] == c;
      }
    }
  }

  // ---------------------------------------------------------------------------
  // The flip list

  /** A direction can only capture for a colour: with turn EMPTY nothing is ever flanked. */
  lemma DirFlipsNeedColour(g: Grid, x: int, y: int, dx: int, dy: int)
    requires IsGrid(g) && IsDirection(dx, dy)
    ensures DirFlips(g, x, y, dx, dy, Empty) == []
  {
  }

  lemma {:induction false} FlipsUpToIff(g: Grid, x: int, y: int, turn: Chip, k: nat)
    requires IsGrid(g) && k <= 8
    ensures FlipsUpTo(g, x, y, turn, k) != [] <==>
      exists d :: 0 <= d < k && DirCaptures(g, x, y, Directions[d].0, Directions[d].1, turn)
  {
    DirectionsAreDirections();
    if k > 0 {
      FlipsUpToIff(g, x, y, turn, k - 1);
      DirFlipsShape(g, x, y, Directions[k - 1].0, Directions[k - 1].1, turn);
    }
  }

  /**
   * `getBeetweemChips` returns a non-empty list exactly when the target is an
   * EMPTY cell of the board and some direction captures; so `validateMove`
   * is true exactly then.
   */
  lemma FlipsNonEmptyIff(g: Grid, x: int, y: int, turn: Chip)
    requires IsGrid(g) && 0 <= x < 8
    ensures Legal(g, x, y, turn) <==>
      InBoard(x, y) && g[x][y] == Empty &&
      exists d :: 0 <= d < 8 && DirCaptures(g, x, y, Directions[d].0, Directions[d].1, turn)
  {
    FlipsUpToIff(g, x, y, turn, 8);
  }

  /** A non-EMPTY (or off-board) target gives no flips, whatever the colour. */
  lemma FlipsOccupiedTarget(g: Grid, x: int, y: int, turn: Chip)
    requires IsGrid(g) && 0 <= x < 8
    requires !(0 <= y < 8) || g[x][y] != Empty
    ensures Flips(g, x, y, turn) == []
  {
  }

  lemma {:induction false} FlipsUpToCells(g: Grid, x: int, y: int, turn: Chip, k: nat)
    requires IsGrid(g) && k <= 8 && InBoard(x, y)
    ensures var f := FlipsUpTo(g, x, y, turn, k);
      forall c :: c in f ==> InBoard(c.0, c.1) && (c == (x, y) || IsOpponent(g[c.0][c.1], turn))
    ensures FlipsUpTo(g, x, y, turn, k) != [] ==> (x, y) in FlipsUpTo(g, x, y, turn, k)
    ensures turn == Empty ==> FlipsUpTo(g, x, y, turn, k) == []
  {
    DirectionsAreDirections();
    if k > 0 {
      FlipsUpToCells(g, x, y, turn, k - 1);
      var d := Directions[k - 1];
      DirFlipsCells(g, x, y, d.0, d.1, turn);
      if turn == Empty {
        DirFlipsNeedColour(g, x, y, d.0, d.1);
      }
    }
  }

  /**
   * Every cell of the flip list is on the board and is either the origin or
   * an opposing chip; a non-empty list contains the origin; only a colour
   * (never EMPTY) can have flips.
   */
  lemma FlipsCells(g: Grid, x: int, y: int, turn: Chip)
    requires IsGrid(g) && 0 <= x < 8
    ensures forall c :: c in Flips(g, x, y, turn) ==>
      InBoard(c.0, c.1) && (c == (x, y) || IsOpponent(g[c.0][c.1], turn))
    ensures Legal(g, x, y, turn) ==> InBoard(x, y) && g[x][y] == Empty && (x, y) in Flips(g, x, y, turn)
    ensures Legal(g, x, y, turn) ==> turn != Empty
  {
    if 0 <= y < 8 {
      FlipsUpToCells(g, x, y, turn, 8);
    }
  }

  /** The cells a legal move sets, the played cell first, are all on the board. */
  lemma MovementsOnBoard(g: Grid, x: int, y: int, turn: Chip)
    requires IsGrid(g) && 0 <= x < 8 && Legal(g, x, y, turn)
    ensures forall c :: c in [(x, y)] + Flips(g, x, y, turn) ==> InBoard(c.0, c.1)
  {
    FlipsCells(g, x, y, turn);
  }

  /** Number of the first `k` directions that capture. */
  function CapturingDirections(g: Grid, x: int, y: int, turn: Chip, k: nat): nat
    requires IsGrid(g) && k <= 8
  {
    DirectionsAreDirections();
    if k == 0 then 0
    else
      var here := if DirCaptures(g, x, y, Directions[k - 1].0, Directions[k - 1].1, turn) then 1 else 0;
      CapturingDirections(g, x, y, turn, k - 1) + here
  }

  /** A capturing direction lists the origin once, a non-capturing one not at all. */
  lemma DirOriginCount(g: Grid, x: int, y: int, dx: int, dy: int, turn: Chip)
    requires IsGrid(g) && IsDirection(dx, dy) && InBoard(x, y)
    ensures multiset(DirFlips(g, x, y, dx, dy, turn))[(x, y)] == if DirCaptures(g, x, y, dx, dy, turn) then 1 else 0
  {
    var f := DirFlips(g, x, y, dx, dy, turn);
    DirFlipsShape(g, x, y, dx, dy, turn);
    DirFlipsCells(g, x, y, dx, dy, turn);
    if f != [] {
      var front := f[..|f| - 1];
      assert f == front + [(x, y)];
      assert multiset(front)[(x, y)] == 0;
    }
  }

  lemma {:induction false} OriginCountUpTo(g: Grid, x: int, y: int, turn: Chip, k: nat)
    requires IsGrid(g) && k <= 8 && InBoard(x, y)
    ensures multiset(FlipsUpTo(g, x, y, turn, k))[(x, y)] == CapturingDirections(g, x, y, turn, k)
  {
    DirectionsAreDirections();
    if k > 0 {
      OriginCountUpTo(g, x, y, turn, k - 1);
      var d := Directions[k - 1];
      DirOriginCount(g, x, y, d.0, d.1, turn);
      var before := FlipsUpTo(g, x, y, turn, k - 1);
      var f := DirFlips(g, x, y, d.0, d.1, turn);
      assert FlipsUpTo(g, x, y, turn, k) == before + f;
      assert multiset(before + f) == multiset(before) + multiset(f);
    }
  }

  /**
   * The walk-back loop pushes the origin once per capturing direction, so the
   * list holds (x, y) as many times as there are capturing directions.
   */
  lemma OriginOncePerCapture(g: Grid, x: int, y: int, turn: Chip)
    requires IsGrid(g) && InBoard(x, y) && g[x][y] == Empty
    ensures multiset(Flips(g, x, y, turn))[(x, y)] == CapturingDirections(g, x, y, turn, 8)
  {
    OriginCountUpTo(g, x, y, turn, 8);
  }

  // ---------------------------------------------------------------------------
  // Moves

  lemma {:induction false} RowCountSame(a: seq<Chip>, b: seq<Chip>)
    requires |a| == |b|
    requires forall k :: 0 <= k < |a| ==> (a[k] != Empty <==> b[k] != Empty)
    ensures RowCount(a) == RowCount(b)
  {
    if a != [] {
      RowCountSame(a[1..], b[1..]);
    }
  }

  lemma {:induction false} RowCountOneMore(a: seq<Chip>, b: seq<Chip>, y: nat)
    requires |a| == |b| && y < |a|
    requires a[y] == Empty && b[y] != Empty
    requires forall k :: 0 <= k < |a| && k != y ==> (a[k] != Empty <==> b[k] != Empty)
    ensures RowCount(b) == RowCount(a) + 1
  {
    if y == 0 {
      RowCountSame(a[1..], b[1..]);
    } else {
      RowCountOneMore(a[1..], b[1..], y - 1);
    }
  }

  /** Two boards that differ in emptiness only at (x, y), EMPTY before and occupied after. */
  lemma {:induction false} OccupiedOneMore(g: Grid, h: Grid, x: nat, y: nat)
    requires |g| == |h| && x < |g|
    requires forall i :: 0 <= i < |g| ==> |g[i]| == |h[i]|
    requires y < |g[x]| && g[x][y] == Empty && h[x][y] != Empty
    requires forall i, j :: 0 <= i < |g| && 0 <= j < |g[i]| && (i, j) != (x, y) ==> (g[i][j] != Empty <==> h[i][j] != Empty)
    ensures Occupied(h) == Occupied(g) + 1
    decreases x
  {
    if x == 0 {
      RowCountOneMore(g[0], h[0], y);
      OccupiedSame(g[1..], h[1..]);
    } else {
      RowCountSame(g[0], h[0]);
      OccupiedOneMore(g[1..], h[1..], x - 1, y);
    }
  }

  lemma {:induction false} OccupiedSame(g: Grid, h: Grid)
    requires |g| == |h|
    requires forall i :: 0 <= i < |g| ==> |g[i]| == |h[i]|
    requires forall i, j :: 0 <= i < |g| && 0 <= j < |g[i]| ==> (g[i][j] != Empty <==> h[i][j] != Empty)
    ensures Occupied(h) == Occupied(g)
  {
    if g != [] {
      RowCountSame(g[0], h[0]);
      OccupiedSame(g[1..], h[1..]);
    }
  }

  /**
   * A rejected move changes nothing. An accepted move sets exactly the origin
   * and the flip cells to the mover's colour, leaves every other cell alone,
   * and so adds exactly one chip to the board; the turn ends up with the
   * other colour iff that colour then has a legal move, else it stays.
   */
  lemma MoveEffect(g: Grid, x: int, y: int, turn: Chip)
    requires IsGrid(g) && 0 <= x < 8
    ensures !Legal(g, x, y, turn) ==> MoveOutcome(g, x, y, turn) == (g, turn)
    ensures Legal(g, x, y, turn) ==>
      var (after, next) := MoveOutcome(g, x, y, turn);
      && IsGrid(after)
      && (forall i, j :: InBoard(i, j) ==>
            after[i][j] == if (i, j) == (x, y) || (i, j) in Flips(g, x, y, turn) then turn else g[i][j])
      && Occupied(after) == Occupied(g) + 1
      && (next == Other(turn) <==> HasLegal(after, Other(turn)))
      && (next == turn <==> !HasLegal(after, Other(turn)))
  {
    if Legal(g, x, y, turn) {
      FlipsCells(g, x, y, turn);
      var f := Flips(g, x, y, turn);
      var after := Place(g, [(x, y)] + f, turn);
      forall i, j | 0 <= i < |g| && 0 <= j < |g[i]| && (i, j) != (x, y)
        ensures g[i][j] != Empty <==> after[i][j] != Empty
      {
        if (i, j) in [(x, y)] + f {
          assert (i, j) in f;
        }
      }
      OccupiedOneMore(g, after, x, y);
    }
  }

  /** The cells holding `c`. */
  function ChipsOf(g: Grid, c: Chip): set<Coord>
    requires IsGrid(g)
  {
    set i, j | 0 <= i < 8 && 0 <= j < 8 && g[i][j] == c :: (i, j)
  }

  /**
   * The chip counts after a legal move. The list of moved cells repeats the
   * origin, so the counts go by the distinct captured cells `d`: the mover
   * gains the origin and `d`, the other colour loses `d`.
   */
  lemma MoveChipCounts(g: Grid, x: int, y: int, turn: Chip)
    requires IsGrid(g) && 0 <= x < 8 && Legal(g, x, y, turn)
    ensures var after := MoveOutcome(g, x, y, turn).0;
      var d := (set c | c in Flips(g, x, y, turn)) - {(x, y)};
      && |ChipsOf(after, turn)| == |ChipsOf(g, turn)| + 1 + |d|
      && |ChipsOf(after, Other(turn))| == |ChipsOf(g, Other(turn))| - |d|
  {
    var f := Flips(g, x, y, turn);
    LegalOutcome(g, x, y, turn, f);
    var after := Place(g, [(x, y)] + f, turn);
    var d := (set c | c in f) - {(x, y)};
    MovedCells(g, x, y, turn, after, d);
    MoverChips(g, after, (x, y), d, turn);
    OtherChips(g, after, (x, y), d, turn);
  }

  /** A legal move sets the EMPTY origin and the distinct captured cells `d`, each of the other colour. */
  lemma MovedCells(g: Grid, x: int, y: int, turn: Chip, after: Grid, d: set<Coord>)
    requires IsGrid(g) && 0 <= x < 8 && Legal(g, x, y, turn)
    requires after == Place(g, [(x, y)] + Flips(g, x, y, turn), turn)
    requires d == (set c | c in Flips(g, x, y, turn)) - {(x, y)}
    ensures InBoard(x, y) && g[x][y] == Empty && turn != Empty && (x, y) !in d
    ensures forall c :: c in d ==> InBoard(c.0, c.1) && g[c.0][c.1] == Other(turn)
    ensures IsGrid(after) && forall i, j :: InBoard(i, j) ==> after[i][j] == if (i, j) == (x, y) || (i, j) in d then turn else g[i][j]
  {
    FlipsCells(g, x, y, turn);
  }

  /** The mover's cells after a move: its old cells, the origin and the captured cells, none of which it held. */
  lemma MoverChips(g: Grid, a: Grid, o: Coord, d: set<Coord>, turn: Chip)
    requires IsGrid(g) && IsGrid(a) && InBoard(o.0, o.1) && g[o.0][o.1] == Empty && turn != Empty && o !in d
    requires forall c :: c in d ==> InBoard(c.0, c.1) && g[c.0][c.1] == Other(turn)
    requires forall i, j :: InBoard(i, j) ==> a[i][j] == if (i, j) == o || (i, j) in d then turn else g[i][j]
    ensures |ChipsOf(a, turn)| == |ChipsOf(g, turn)| + 1 + |d|
  {
    var mine, now, moved := ChipsOf(g, turn), ChipsOf(a, turn), {o} + d;
    forall c
      ensures c in now <==> c in mine + moved
    {
      ChipsOfMember(g, turn, c);
      ChipsOfMember(a, turn, c);
    }
    forall c | c in moved
      ensures c !in mine
    {
      ChipsOfMember(g, turn, c);
    }
    assert now == mine + moved;
    CardUnion(mine, moved);
    CardUnion({o}, d);
  }

  /** The other colour's cells after a move: its old cells without the captured ones. */
  lemma OtherChips(g: Grid, a: Grid, o: Coord, d: set<Coord>, turn: Chip)
    requires IsGrid(g) && IsGrid(a) && InBoard(o.0, o.1) && g[o.0][o.1] == Empty && turn != Empty
    requires forall c :: c in d ==> InBoard(c.0, c.1) && g[c.0][c.1] == Other(turn)
    requires forall i, j :: InBoard(i, j) ==> a[i][j] == if (i, j) == o || (i, j) in d then turn else g[i][j]
    ensures |ChipsOf(a, Other(turn))| == |ChipsOf(g, Other(turn))| - |d|
  {
    var theirs, now := ChipsOf(g, Other(turn)), ChipsOf(a, Other(turn));
    forall c
      ensures c in now <==> c in theirs - d
      ensures c in d ==> c in theirs
    {
      ChipsOfMember(g, Other(turn), c);
      ChipsOfMember(a, Other(turn), c);
    }
    assert now == theirs - d;
    CardDifference(theirs, d);
  }

  lemma ChipsOfMember(g: Grid, col: Chip, c: Coord)
    requires IsGrid(g)
    ensures c in ChipsOf(g, col) <==> InBoard(c.0, c.1) && g[c.0][c.1] == col
  {
    if InBoard(c.0, c.1) && g[c.0][c.1] == col {
      var (i, j) := c;
      assert (i, j) in ChipsOf(g, col);
    }
  }

  lemma CardUnion<T>(a: set<T>, b: set<T>)
    requires a !! b
    ensures |a + b| == |a| + |b|
  {
  }

  lemma CardDifference<T>(a: set<T>, b: set<T>)
    requires b <= a
    ensures |a - b| == |a| - |b|
  {
    assert a == (a - b) + b;
  }

  /** A colour with no legal move keeps the turn after a move only through the "no valid movements" branch. */
  lemma TurnAlternatesWhenPossible(g: Grid, x: int, y: int, turn: Chip)
    requires IsGrid(g) && 0 <= x < 8 && Legal(g, x, y, turn)
    requires HasLegal(MoveOutcome(g, x, y, turn).0, Other(turn))
    ensures MoveOutcome(g, x, y, turn).1 != turn
  {
    FlipsCells(g, x, y, turn);
  }

  /**
   * The first move of a game: BLACK playing (2, 3) from the start board
   * flanks the WHITE chip at (3, 3) against (4, 3), so the list is that chip
   * and then the origin, and the move is legal.
   */
  lemma OpeningMove()
    ensures Flips(StartGrid(), 2, 3, Black) == [(3, 3), (2, 3)]
    ensures Legal(StartGrid(), 2, 3, Black)
  {
    var g := StartGrid();
    OpeningQuietDirections();
    assert g[3][3] == White && g[4][3] == Black && g[3][4] == Black;
    assert RunLength(g, 4, 3, 1, 0, Black) == 0;
    assert RunLength(g, 3, 3, 1, 0, Black) == 1;
    assert RunLength(g, 3, 4, 1, 1, Black) == 0;
    assert DirFlips(g, 2, 3, 1, 0, Black) == [(3, 3), (2, 3)];
  }

  /** The board after that opening: BLACK on (2, 3), (3, 3), (3, 4) and (4, 3), WHITE on (4, 4) only. */
  function OpeningReplyCell(i: int, j: int): Chip
  {
    if (i, j) == (4, 4) then White
    else if (i, j) == (2, 3) || (i, j) == (3, 3) || (i, j) == (3, 4) || (i, j) == (4, 3) then Black
    else Empty
  }

  /**
   * The whole effect of that opening: the board is the one above, and since
   * WHITE can answer, the turn passes to WHITE.
   */
  lemma OpeningOutcome()
    ensures var (after, next) := MoveOutcome(StartGrid(), 2, 3, Black);
      && IsGrid(after)
      && (forall i, j :: InBoard(i, j) ==> after[i][j] == OpeningReplyCell(i, j))
      && next == White
  {
    var g := StartGrid();
    OpeningMove();
    var f := [(3, 3), (2, 3)];
    var after := Place(g, [(2, 3)] + f, Black);
    OpeningPlaced(g, after);
    OpeningAnswer(after);
    LegalOutcome(g, 2, 3, Black, f);
  }

  /** Setting (2, 3) and (3, 3) to BLACK on the start board gives the board above. */
  lemma OpeningPlaced(g: Grid, a: Grid)
    requires IsGrid(g) && forall i, j :: InBoard(i, j) ==> g[i][j] == StartCell(i, j)
    requires a == Place(g, [(2, 3)] + [(3, 3), (2, 3)], Black)
    ensures IsGrid(a) && forall i, j :: InBoard(i, j) ==> a[i][j] == OpeningReplyCell(i, j)
  {
  }

  /** What `makeMove` leaves after a move whose list of cells is `cells`. */
  lemma LegalOutcome(g: Grid, x: int, y: int, turn: Chip, f: seq<Coord>)
    requires IsGrid(g) && 0 <= x < 8
    requires f == Flips(g, x, y, turn) && f != []
    ensures var after := Place(g, [(x, y)] + f, turn);
      MoveOutcome(g, x, y, turn) == (after, if HasLegal(after, Other(turn)) then Other(turn) else turn)
  {
  }

  /** On that board WHITE at (2, 2) flanks the BLACK chip at (3, 3) against (4, 4). */
  lemma OpeningAnswer(a: Grid)
    requires IsGrid(a) && forall i, j :: InBoard(i, j) ==> a[i][j] == OpeningReplyCell(i, j)
    ensures Legal(a, 2, 2, White)
    ensures HasLegal(a, White)
  {
    assert a[2][2] == Empty && a[3][3] == Black && a[4][4] == White;
    assert RunLength(a, 4, 4, 1, 1, White) == 0;
    assert RunLength(a, 3, 3, 1, 1, White) == 1;
    assert RunEnd(a, 3, 3, 1, 1, White) == (4, 4);
    assert DirCaptures(a, 2, 2, Directions[7].0, Directions[7].1, White);
    FlipsNonEmptyIff(a, 2, 2, White);
  }

  /** From (2, 3) on the start board the first six directions reach an EMPTY cell at once. */
  lemma OpeningQuietDirections()
    ensures FlipsUpTo(StartGrid(), 2, 3, Black, 6) == []
  {
    var g := StartGrid();
    assert g[1][2] == Empty && g[1][3] == Empty && g[1][4] == Empty;
    assert g[2][2] == Empty && g[2][4] == Empty && g[3][2] == Empty;
    assert RunLength(g, 1, 2, -1, -1, Black) == 0;
    assert RunLength(g, 1, 3, -1, 0, Black) == 0;
    assert RunLength(g, 1, 4, -1, 1, Black) == 0;
    assert RunLength(g, 2, 2, 0, -1, Black) == 0;
    assert RunLength(g, 2, 4, 0, 1, Black) == 0;
    assert RunLength(g, 3, 2, 1, -1, Black) == 0;
  }
}
