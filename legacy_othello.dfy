/**
 * The earlier browser engine (web/src/libs/game/Othello.ts). Its rules are
 * those of the current engine: the same directions, the same scans and the
 * same turn rule, on a board it allocates itself, with no side to move
 * exposed and no movements sent. It extends the earlier session class;
 * here the session is the field `session`, opened for the room with a
 * limit of 2 and connecting at once. `G` is the type of whatever game state
 * that session receives.
 */
module LegacyOthelloEngine {
  import opened Wrappers
  import opened OthelloRules
  import opened BoardScan
  import opened LegacyMultiplayerClient

  class LegacyOthello<G> {
    const session: LegacyMultiplayer<G>
    var board: array2<Chip>
    var turn: Chip

    ghost predicate Valid()
      reads this
    {
      IsBoard(board) && turn != Empty
    }

    ghost function Cells(): (g: Grid)
      reads this, board
      requires Valid()
      ensures IsGrid(g)
      ensures forall i, j :: InBoard(i, j) ==> g[i][j] == board[i, j]
    {
      Snapshot(board)
    }

    /** `new Othello(room)`: the session for `room`, then a fresh board in the start position, BLACK to move. */
    constructor (room: string)
      ensures Valid() && fresh(board) && fresh(session)
      ensures Cells() == StartGrid() && turn == Black
      ensures session.room == room && session.maxPlayers == 2 && session.connectRequested
      ensures session.players == map[] && session.gameState == None
      ensures session.outbox == [] && session.hooks == []
    {
      session := new LegacyMultiplayer(room, Some(2), Some(true));
      var b := new Chip[8, 8]((i, j) => Empty);
      SetCentre(b);
      board := b;
      turn := Black;
      new;
      GridExt(Cells(), StartGrid());
    }

    /** `getBeetweemChips([x, y], turn)`; an omitted `turn` is the side to move. */
    method GetBetweenChips(x: int, y: int, turn: Option<Chip>) returns (result: seq<Coord>)
      requires Valid() && 0 <= x < 8
      ensures result == Flips(Cells(), x, y, turn.GetOr(this.turn))
    {
      result := BetweenChips(board, x, y, turn.GetOr(this.turn));
    }

    /** `validateMove([x, y], turn)`: some chip would be flipped. */
    method ValidateMove(x: int, y: int, turn: Option<Chip>) returns (valid: bool)
      requires Valid() && 0 <= x < 8
      ensures valid == Legal(Cells(), x, y, turn.GetOr(this.turn))
    {
      var flips := GetBetweenChips(x, y, turn);
      valid := |flips| > 0;
    }

    /** `toggleChip([x, y])`: the cell takes the colour of the side to move; no other cell changes. */
    method ToggleChip(x: int, y: int)
      requires Valid() && InBoard(x, y)
      modifies board
      ensures board[x, y] == turn
      ensures forall i, j :: InBoard(i, j) && (i, j) != (x, y) ==> board[i, j] == old(board[i, j])
    {
      board[x, y] := turn;
    }

    /** The loop of `makeMove` that toggles each listed cell in turn. */
    method ToggleAll(cells: seq<Coord>)
      requires Valid() && forall c :: c in cells ==> InBoard(c.0, c.1)
      modifies board
      ensures Cells() == Place(old(Cells()), cells, turn)
    {
      ghost var g := Cells();
      for k := 0 to |cells|
        invariant forall i, j :: InBoard(i, j) ==> board[i, j] == if (i, j) in cells[..k] then turn else g[i][j]
      {
        assert cells[..k + 1] == cells[..k] + [cells[k]];
        ToggleChip(cells[k].0, cells[k].1);
      }
      assert cells[..|cells|] == cells;
      GridExt(Cells(), Place(g, cells, turn));
    }

    /** `hasValidMovements(c)`: some EMPTY cell is a legal move for `c`. */
    method HasValidMovements(c: Chip) returns (found: bool)
      requires Valid()
      ensures found == HasLegal(Cells(), c)
    {
      found := AnyLegal(board, c);
    }

    /** `toggleTurn()`: the other colour moves next if it has a legal move. */
    method ToggleTurn()
      requires Valid()
      modifies this
      ensures Valid() && board == old(board)
      ensures turn == if HasLegal(Cells(), Other(old(turn))) then Other(old(turn)) else old(turn)
    {
      var next := if turn == Black then White else Black;
      var hasMoves := HasValidMovements(next);
      if hasMoves {
        turn := next;
      }
    }

    /** `makeMove([x, y])`: as in the current engine, without the online part. */
    method MakeMove(x: int, y: int) returns (result: array2<Chip>)
      requires Valid() && 0 <= x < 8
      modifies this, board
      ensures Valid() && result == board && board == old(board)
      ensures (Cells(), turn) == MoveOutcome(old(Cells()), x, y, old(turn))
    {
      ghost var g := Cells();
      var flips := GetBetweenChips(x, y, None);
      var movements := [(x, y)] + flips;
      if |movements| < 2 {
        return board;
      }
      ghost var t := turn;
      MovementsOnBoard(g, x, y, t);
      ToggleAll(movements);
      ToggleTurn();
      return board;
    }
  }
}
