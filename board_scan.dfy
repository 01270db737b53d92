/**
 * The board scans both browser engines run on their `_board` array:
 * `getBeetweemChips` (a loop over the eight directions, each a walk outward
 * and, on a capture, a walk back), `validateMove` and `hasValidMovements`
 * (a full 8x8 search). The engines' files hold the same loops line for line;
 * here they are written once over the board array and proved against
 * OthelloRules.
 */
module BoardScan {
  import opened OthelloRules

  predicate IsBoard(b: array2<Chip>)
  {
    b.Length0 == 8 && b.Length1 == 8
  }

  /** The board array's current contents as a value. */
  ghost function Snapshot(b: array2<Chip>): (g: Grid)
    reads b
    requires IsBoard(b)
    ensures IsGrid(g)
    ensures forall i, j :: InBoard(i, j) ==> g[i][j] == b[i, j]
  {
    Rows(b, 8)
  }

  /**
   * The outward walk from (x, y) is at (i, j) after stepping over `n`
   * opposing chips: the rest of the run starts here.
   */
  ghost predicate Walked(g: Grid, x: int, y: int, dx: int, dy: int, turn: Chip, i: int, j: int, n: nat)
    requires IsGrid(g) && IsDirection(dx, dy)
  {
    && RunLength(g, x + dx, y + dy, dx, dy, turn) == n + RunLength(g, i, j, dx, dy, turn)
    && RunEnd(g, x + dx, y + dy, dx, dy, turn) == RunEnd(g, i, j, dx, dy, turn)
  }

  /** Stepping over an opposing chip at (i, j). */
  lemma WalkAdvance(g: Grid, x: int, y: int, dx: int, dy: int, turn: Chip, i: int, j: int, n: nat)
    requires IsGrid(g) && IsDirection(dx, dy) && Walked(g, x, y, dx, dy, turn, i, j, n)
    requires InBoard(i, j) && IsOpponent(g[i][j], turn)
    ensures Walked(g, x, y, dx, dy, turn, i + dx, j + dy, n + 1)
  {
  }

  /** The walk stops at (i, j) without a capture: the direction adds nothing. */
  lemma WalkStops(g: Grid, x: int, y: int, dx: int, dy: int, turn: Chip, i: int, j: int, n: nat)
    requires IsGrid(g) && IsDirection(dx, dy) && Walked(g, x, y, dx, dy, turn, i, j, n)
    requires !InBoard(i, j) || g[i][j] == Empty || (g[i][j] == turn && n == 0)
    ensures DirFlips(g, x, y, dx, dy, turn) == []
  {
  }

  /** Where the walk stops decides the direction: it captures exactly when it stopped on a `turn` chip after opposing ones. */
  lemma WalkVerdict(g: Grid, x: int, y: int, dx: int, dy: int, turn: Chip, i: int, j: int, n: nat)
    requires IsGrid(g) && IsDirection(dx, dy) && Walked(g, x, y, dx, dy, turn, i, j, n)
    requires !InBoard(i, j) || !IsOpponent(g[i][j], turn)
    ensures DirCaptures(g, x, y, dx, dy, turn) <==> InBoard(i, j) && g[i][j] != Empty && g[i][j] == turn && n > 0
  {
  }

  /**
   * The walk reaches a `turn` chip at (i, j) after `n > 0` opposing chips:
   * (i, j) is n + 1 steps out and the direction contributes the walk back.
   */
  lemma WalkCaptures(g: Grid, x: int, y: int, dx: int, dy: int, turn: Chip, i: int, j: int, n: nat)
    requires IsGrid(g) && IsDirection(dx, dy) && Walked(g, x, y, dx, dy, turn, i, j, n)
    requires InBoard(i, j) && g[i][j] != Empty && g[i][j] == turn && n > 0
    ensures (i, j) == Offset(x, y, dx, dy, n + 1)
    ensures DirFlips(g, x, y, dx, dy, turn) == WalkBack(i, j, dx, dy, n + 1)
  {
    RunEndIsOffset(g, x + dx, y + dy, dx, dy, turn);
    OffsetShift(x, y, dx, dy, n);
  }

  /**
   * The walk-back loop: from (i, j), `m` steps out from (x, y), step back
   * until (x, y) is reached, pushing each cell stepped onto.
   */
  method WalkBackTo(x: int, y: int, dx: int, dy: int, i0: int, j0: int, ghost m0: nat) returns (pushed: seq<Coord>)
    requires IsDirection(dx, dy) && (i0, j0) == Offset(x, y, dx, dy, m0)
    ensures pushed == WalkBack(i0, j0, dx, dy, m0)
  {
    pushed := [];
    var i, j := i0, j0;
    ghost var m: nat := m0;
    while i != x || j != y
      invariant (i, j) == Offset(x, y, dx, dy, m)
      invariant pushed + WalkBack(i, j, dx, dy, m) == WalkBack(i0, j0, dx, dy, m0)
      decreases m
    {
      assert pushed + WalkBack(i, j, dx, dy, m) == (pushed + [(i - dx, j - dy)]) + WalkBack(i - dx, j - dy, dx, dy, m - 1);
      i := i - dx;
      j := j - dy;
      pushed := pushed + [(i, j)];
      m := m - 1;
    }
    OffsetLeaves(x, y, dx, dy, m);
  }

  /**
   * The outward half of the direction loop: step from (x, y) along (dx, dy)
   * while the cell is on the board and holds an opposing chip. It stops on
   * the first cell that is off the board, EMPTY or of colour `turn`;
   * `foundOpponent` records whether any opposing chip was stepped over.
   */
  method WalkOut(board: array2<Chip>, x: int, y: int, dx: int, dy: int, turn: Chip)
    returns (i: int, j: int, foundOpponent: bool, ghost n: nat)
    requires IsBoard(board) && IsDirection(dx, dy)
    ensures Walked(Snapshot(board), x, y, dx, dy, turn, i, j, n)
    ensures foundOpponent == (n > 0)
    ensures !InBoard(i, j) || !IsOpponent(board[i, j], turn)
  {
    ghost var g := Snapshot(board);
    foundOpponent := false;
    i, j, n := x + dx, y + dy, 0;
    while 0 <= i < 8 && 0 <= j < 8 && board[i, j] != Empty && board[i, j] != turn
      invariant foundOpponent == (n > 0)
      invariant Walked(g, x, y, dx, dy, turn, i, j, n)
      decreases RunLength(g, i, j, dx, dy, turn)
    {
      assert IsOpponent(g[i][j], turn);
      WalkAdvance(g, x, y, dx, dy, turn, i, j, n);
      foundOpponent := true;
      i := i + dx;
      j := j + dy;
      n := n + 1;
    }
  }

  ghost function Rows(b: array2<Chip>, k: nat): (r: seq<seq<Chip>>)
    reads b
    requires IsBoard(b) && k <= 8
    ensures |r| == k
    ensures forall i :: 0 <= i < k ==> |r[i]| == 8
    ensures forall i, j :: 0 <= i < k && 0 <= j < 8 ==> r[i][j] == b[i, j]
  {
    if k == 0 then [] else Rows(b, k - 1) + [Row(b, k - 1, 8)]
  }

  ghost function Row(b: array2<Chip>, i: nat, k: nat): (r: seq<Chip>)
    reads b
    requires IsBoard(b) && i < 8 && k <= 8
    ensures |r| == k
    ensures forall j :: 0 <= j < k ==> r[j] == b[i, j]
  {
    if k == 0 then [] else Row(b, i, k - 1) + [b[i, k - 1]]
  }

  /**
   * One pass of the direction loop: walk out over the opposing chips; if the
   * walk stopped on a `turn` chip after at least one of them, walk back to
   * (x, y) pushing every cell stepped onto.
   */
  method ScanDirection(board: array2<Chip>, x: int, y: int, dx: int, dy: int, turn: Chip)
    returns (pushed: seq<Coord>)
    requires IsBoard(board) && IsDirection(dx, dy)
    ensures pushed == DirFlips(Snapshot(board), x, y, dx, dy, turn)
  {
    ghost var g := Snapshot(board);
    var i, j, foundOpponent, n := WalkOut(board, x, y, dx, dy, turn);
    if 0 <= i < 8 && 0 <= j < 8 && board[i, j] != Empty && board[i, j] == turn && foundOpponent {
      WalkCaptures(g, x, y, dx, dy, turn, i, j, n);
      pushed := WalkBackTo(x, y, dx, dy, i, j, n + 1);
    } else {
      WalkStops(g, x, y, dx, dy, turn, i, j, n);
      pushed := [];
    }
  }

  /** `getBeetweemChips([x, y], turn)` on the board array. */
  method BetweenChips(board: array2<Chip>, x: int, y: int, turn: Chip) returns (result: seq<Coord>)
    requires IsBoard(board) && 0 <= x < 8
    ensures result == Flips(Snapshot(board), x, y, turn)
  {
    result := [];
    if !(0 <= y < 8) || board[x, y] != Empty {
      return;
    }
    DirectionsAreDirections();
    for d := 0 to |Directions|
      invariant result == FlipsUpTo(Snapshot(board), x, y, turn, d)
    {
      var pushed := ScanDirection(board, x, y, Directions[d].0, Directions[d].1, turn);
      result := result + pushed;
    }
  }

  /** `validateMove([x, y], turn)`: the flip list is non-empty. */
  method Validate(board: array2<Chip>, x: int, y: int, turn: Chip) returns (valid: bool)
    requires IsBoard(board) && 0 <= x < 8
    ensures valid == Legal(Snapshot(board), x, y, turn)
  {
    var flips := BetweenChips(board, x, y, turn);
    valid := |flips| > 0;
  }

  /** `hasValidMovements(c)`: row by row, the first EMPTY cell that is a legal move for `c` ends the search. */
  method AnyLegal(board: array2<Chip>, c: Chip) returns (found: bool)
    requires IsBoard(board)
    ensures found == HasLegal(Snapshot(board), c)
  {
    ghost var g := Snapshot(board);
    for i := 0 to 8
      invariant forall i', j' :: 0 <= i' < i && 0 <= j' < 8 ==> !(g[i'][j'] == Empty && Legal(g, i', j', c))
    {
      for j := 0 to 8
        invariant forall i', j' :: 0 <= i' < i && 0 <= j' < 8 ==> !(g[i'][j'] == Empty && Legal(g, i', j', c))
        invariant forall j' :: 0 <= j' < j ==> !(g[i][j'] == Empty && Legal(g, i, j', c))
      {
        if board[i, j] == Empty {
          var valid := Validate(board, i, j, c);
          if valid {
            return true;
          }
        }
      }
    }
    return false;
  }

  /** The four assignments both constructors make: WHITE on (3,3) and (4,4), BLACK on (3,4) and (4,3). */
  method SetCentre(b: array2<Chip>)
    requires IsBoard(b)
    modifies b
    ensures forall i, j :: InBoard(i, j) ==> b[i, j] == if StartCell(i, j) != Empty then StartCell(i, j) else old(b[i, j])
  {
    b[3, 3] := White;
    b[3, 4] := Black;
    b[4, 3] := Black;
    b[4, 4] := White;
  }
}
