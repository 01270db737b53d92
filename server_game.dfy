/**
 * The server's legality-only check, `validateMove(x, y, game, player)` in
 * server/src/game.ts. It reads a board it is handed (an 8x8 array of
 * EMPTY/WHITE/BLACK with the same encoding as the browser engines) and never
 * writes to it, so the board is a Grid value here. The walk per direction is
 * the one the browser engines run, without the walk back: the first
 * capturing direction answers true at once.
 */
module ServerGame {
  import opened OthelloRules
  import opened BoardScan

  /**
   * One pass of the direction loop: walk out from (x, y) while on the board;
   * an EMPTY cell ends the direction, a `player` chip answers whether an
   * opposing chip was stepped over, anything else is an opposing chip.
   */
  method ScanCaptures(game: Grid, x: int, y: int, dx: int, dy: int, player: Chip) returns (captures: bool)
    requires IsGrid(game) && IsDirection(dx, dy)
    ensures captures == DirCaptures(game, x, y, dx, dy, player)
  {
    var i, j := x + dx, y + dy;
    var foundOpponent := false;
    ghost var n: nat := 0;
    while 0 <= i < 8 && 0 <= j < 8
      invariant foundOpponent == (n > 0)
      invariant Walked(game, x, y, dx, dy, player, i, j, n)
      decreases RunLength(game, i, j, dx, dy, player)
    {
      var cellValue := game[i][j];
      if cellValue == Empty {
        WalkVerdict(game, x, y, dx, dy, player, i, j, n);
        return false;
      }
      if cellValue == player {
        WalkVerdict(game, x, y, dx, dy, player, i, j, n);
        return foundOpponent;
      }
      WalkAdvance(game, x, y, dx, dy, player, i, j, n);
      foundOpponent := true;
      i := i + dx;
      j := j + dy;
      n := n + 1;
    }
    WalkVerdict(game, x, y, dx, dy, player, i, j, n);
    return false;
  }

  /**
   * `validateMove(x, y, game, player)`: false on an occupied target (a column
   * outside the board reads `undefined`, which is not EMPTY); otherwise true
   * as soon as one direction captures, and false when none does.
   */
  method ValidateMove(x: int, y: int, game: Grid, player: Chip) returns (valid: bool)
    requires IsGrid(game) && 0 <= x < 8
    ensures valid == Legal(game, x, y, player)
    ensures valid <==> InBoard(x, y) && game[x][y] == Empty && exists d :: 0 <= d < 8 && DirCaptures(game, x, y, Directions[d].0, Directions[d].1, player)
  {
    FlipsNonEmptyIff(game, x, y, player);
    if !(0 <= y < 8) || game[x][y] != Empty {
      return false;
    }
    DirectionsAreDirections();
    for d := 0 to |Directions|
      invariant forall d' :: 0 <= d' < d ==> !DirCaptures(game, x, y, Directions[d'].0, Directions[d'].1, player)
    {
      var captures := ScanCaptures(game, x, y, Directions[d].0, Directions[d].1, player);
      if captures {
        return true;
      }
    }
    return false;
  }

  /**
   * The check in declarative terms: the target is an EMPTY cell and in some
   * direction the cells 1..n steps out (n >= 1) hold opposing chips and the
   * cell n+1 steps out holds `player`.
   */
  lemma LegalIffFlanked(game: Grid, x: int, y: int, player: Chip)
    requires IsGrid(game) && 0 <= x < 8
    ensures Legal(game, x, y, player) <==>
      InBoard(x, y) && game[x][y] == Empty &&
      exists d, n: nat :: 0 <= d < 8 && CapturesAlong(game, x, y, Directions[d].0, Directions[d].1, player, n)
  {
    FlipsNonEmptyIff(game, x, y, player);
    DirectionsAreDirections();
    forall d | 0 <= d < 8
      ensures DirCaptures(game, x, y, Directions[d].0, Directions[d].1, player) <==>
        exists n: nat :: CapturesAlong(game, x, y, Directions[d].0, Directions[d].1, player, n)
    {
      DirCapturesIff(game, x, y, Directions[d].0, Directions[d].1, player);
    }
  }
}
