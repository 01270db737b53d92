/**
 * The current browser engine (web/src/libs/game/Othello/Othello.ts) and the
 * opponent relay it creates when the game is online
 * (web/src/libs/game/Othello/Opponent.ts). The engine owns the board array
 * of its game state and the side to move; every board query runs the scans
 * of BoardScan, whose results are the functions of OthelloRules, so each
 * method here is specified by those functions on the board's contents
 * (`Cells()`) before and after the call.
 */
module OthelloEngine {
  import opened Wrappers
  import opened OthelloRules
  import opened BoardScan
  import opened PlayerRecord
  import opened GameStateRecord
  import opened MovementRecord
  import opened MultiplayerClient

  /** `OthelloPlayerState`: the per-player part of a `Player`. */
  datatype OthelloPlayerState = OthelloPlayerState(chip: Chip, totalChips: int, winner: Option<bool>)

  /** `OthelloState`: the game payload of the room's game state; `board` is the array the engine plays on. */
  datatype OthelloState = OthelloState(
    board: array2<Chip>,
    turn: Chip,
    winner: Option<int>,
    online: bool,
    moves: seq<Coord>,
    players: seq<Player<OthelloPlayerState>>)

  /** The session type the engine uses: moves are sent as the list of cells played. */
  type OthelloMultiplayer = Multiplayer<OthelloState, seq<Coord>, OthelloPlayerState>

  type OthelloMove = Movement<seq<Coord>, OthelloPlayerState>

  /** The per-player state the constructor gives the local player. */
  const LocalStart := OthelloPlayerState(Black, 0, Some(false))

  class Othello {
    var multiplayer: Multiplayer?<OthelloState, seq<Coord>, OthelloPlayerState>
    var state: GameState<OthelloState>
    /** `_board`: the board array of `state`, shared with it. */
    var board: array2<Chip>
    var turn: Chip
    var player: Player<OthelloPlayerState>
    var opponent: OthelloOpponent?
    var online: bool
    var room: string
    /** The movements this engine has sent, oldest first. */
    var history: seq<OthelloMove>

    ghost predicate Valid()
      reads this
    {
      && IsBoard(board)
      && board == state.state.board
      && turn != Empty
      && (online <==> multiplayer != null)
      && (multiplayer != null ==> opponent != null && opponent.game == this && opponent.multiplayer == multiplayer)
    }

    /** The board's contents. */
    ghost function Cells(): (g: Grid)
      reads this, board
      requires Valid()
      ensures IsGrid(g)
      ensures forall i, j :: InBoard(i, j) ==> g[i][j] == board[i, j]
    {
      Snapshot(board)
    }

    /**
     * `new Othello(room, gameState)`: plays on the game state's own board,
     * placing the four centre chips over whatever was there; the first
     * listed player becomes the local player, playing BLACK (in the list as
     * well, since the two are one object); an online state opens a session
     * (limit 2, connecting at once) with its opponent relay.
     */
    constructor (room: string, gameState: GameState<OthelloState>)
      requires IsBoard(gameState.state.board) && |gameState.state.players| >= 1
      modifies gameState.state.board
      ensures Valid()
      ensures state == gameState.(state := gameState.state.(players := gameState.state.players[0 := player]))
      ensures board == gameState.state.board
      ensures forall i, j :: InBoard(i, j) ==>
        board[i, j] == if StartCell(i, j) != Empty then StartCell(i, j) else old(gameState.state.board[i, j])
      ensures turn == Black && this.room == room && history == []
      ensures player == gameState.state.players[0].(gameState := Some(LocalStart))
      ensures online == gameState.state.online
      ensures online ==> fresh(multiplayer) && fresh(opponent)
      ensures online ==>
        && multiplayer.room == room && multiplayer.maxPlayers == 2 && multiplayer.minPlayers == 2
        && multiplayer.gameState == state && multiplayer.player == player
        && multiplayer.connectRequested && multiplayer.players == map[]
        && multiplayer.listeners == ["player_move"]
        && multiplayer.outbox == [] && multiplayer.notifications == []
    {
      board := gameState.state.board;
      turn := Black;
      // `#player` is the first listed player itself, so setting its game
      // state also sets it in the game state's player list.
      var local := gameState.state.players[0].(gameState := Some(LocalStart));
      player := local;
      state := gameState.(state := gameState.state.(players := gameState.state.players[0 := local]));
      this.room := room;
      online := false;
      history := [];
      multiplayer := null;
      opponent := null;
      new;
      SetCentre(board);
      if state.state.online {
        online := true;
        var session := new Multiplayer(MultiplayerConfig(room, Some(2), None, Some(online), state, player));
        multiplayer := session;
        opponent := new OthelloOpponent(this, session);
      }
    }

    /**
     * `Othello.createNewGame(room, online, player)`: a new game state named
     * "othello" (with a fresh id) over an all-EMPTY board, BLACK to move, no
     * winner and no moves, `player` its only player; then the constructor.
     */
    static method CreateNewGame(room: string, online: bool, p: Player<OthelloPlayerState>, freshId: string)
      returns (game: Othello)
      ensures fresh(game) && fresh(game.board) && game.Valid()
      ensures game.Cells() == StartGrid()
      ensures game.turn == Black && game.online == online && game.room == room && game.history == []
      ensures game.state.id == freshId && game.state.game == "othello"
      ensures game.state.state.turn == Black && game.state.state.winner == None
      ensures game.state.state.moves == [] && game.state.state.players == [game.player] && game.state.state.online == online
      ensures game.player == p.(gameState := Some(LocalStart))
    {
      var board := new Chip[8, 8]((i, j) => Empty);
      var s := MakeGameState(GameStateInit(None, "othello", OthelloState(board, Black, None, online, [], [p])), freshId);
      game := new Othello(room, s);
      GridExt(game.Cells(), StartGrid());
    }

    /** `getBeetweemChips([x, y], turn)`; an omitted `turn` is the side to move. */
    method GetBetweenChips(x: int, y: int, turn: Option<Chip>) returns (result: seq<Coord>)
      requires Valid() && 0 <= x < 8
      ensures result == Flips(Cells(), x, y, turn.GetOr(this.turn))
    {
      result := BetweenChips(board, x, y, turn.GetOr(this.turn));
    }

    /** `validateMove([x, y], turn)`: some chip would be flipped. */
    method ValidateMove(x: int, y: int, turn: Option<Chip>) returns (valid: bool)
      requires Valid() && 0 <= x < 8
      ensures valid == Legal(Cells(), x, y, turn.GetOr(this.turn))
    {
      var flips := GetBetweenChips(x, y, turn);
      valid := |flips| > 0;
    }

    /** `toggleChip([x, y])`: the cell takes the colour of the side to move; no other cell changes. */
    method ToggleChip(x: int, y: int)
      requires Valid() && InBoard(x, y)
      modifies board
      ensures board[x, y] == turn
      ensures forall i, j :: InBoard(i, j) && (i, j) != (x, y) ==> board[i, j] == old(board[i, j])
    {
      board[x, y] := turn;
    }

    /** The loop of `makeMove` that toggles each listed cell in turn: those cells take the side's colour. */
    method ToggleAll(cells: seq<Coord>)
      requires Valid() && forall c :: c in cells ==> InBoard(c.0, c.1)
      modifies board
      ensures Cells() == Place(old(Cells()), cells, turn)
    {
      ghost var g := Cells();
      for k := 0 to |cells|
        invariant forall i, j :: InBoard(i, j) ==> board[i, j] == if (i, j) in cells[..k] then turn else g[i][j]
      {
        assert cells[..k + 1] == cells[..k] + [cells[k]];
        ToggleChip(cells[k].0, cells[k].1);
      }
      assert cells[..|cells|] == cells;
      GridExt(Cells(), Place(g, cells, turn));
    }

    /** `hasValidMovements(c)`: some EMPTY cell is a legal move for `c`. */
    method HasValidMovements(c: Chip) returns (found: bool)
      requires Valid()
      ensures found == HasLegal(Cells(), c)
    {
      found := AnyLegal(board, c);
    }

    /** `toggleTurn()`: the other colour moves next if it has a legal move; otherwise the same side moves again. */
    method ToggleTurn()
      requires Valid()
      modifies this
      ensures Valid()
      ensures turn == if HasLegal(Cells(), Other(old(turn))) then Other(old(turn)) else old(turn)
      ensures board == old(board) && state == old(state) && player == old(player) && online == old(online)
      ensures room == old(room) && history == old(history) && multiplayer == old(multiplayer) && opponent == old(opponent)
    {
      var next := if turn == Black then White else Black;
      var hasMoves := HasValidMovements(next);
      if hasMoves {
        turn := next;
      }
    }

    /**
     * The online tail of `makeMove`: send the cells played as a movement of
     * the local player and keep it in the history.
     */
    method Publish(movements: seq<Coord>, freshId: string, now: int)
      requires Valid()
      modifies this, multiplayer
      ensures Valid()
      ensures board == old(board) && state == old(state) && player == old(player) && online == old(online)
      ensures turn == old(turn) && room == old(room) && multiplayer == old(multiplayer) && opponent == old(opponent)
      ensures online ==>
        && history == old(history) + [MakeMovement(MovementData(None, player, movements, None, multiplayer.room), freshId, now)]
        && multiplayer.outbox == old(multiplayer.outbox) + [PlayerMoveSent(history[|history| - 1])]
        && multiplayer.Session() == old(multiplayer.Session())
        && multiplayer.notifications == old(multiplayer.notifications)
      ensures !online ==> history == old(history)
    {
      if online {
        var m := multiplayer.PlayerMove(player, movements, freshId, now);
        history := history + [m];
      }
    }

    /**
     * `makeMove([x, y])`: the played cell and every flipped cell take the
     * colour of the side to move, then the turn passes as `toggleTurn`
     * says; online, the list of those cells is sent as a movement and kept
     * in the history. A move that flips nothing changes nothing. Either way
     * the board array is returned.
     */
    method MakeMove(x: int, y: int, freshId: string, now: int) returns (result: array2<Chip>)
      requires Valid() && 0 <= x < 8
      modifies this, board, multiplayer
      ensures Valid() && result == board
      ensures board == old(board) && state == old(state) && player == old(player) && online == old(online)
      ensures room == old(room) && multiplayer == old(multiplayer) && opponent == old(opponent)
      ensures (Cells(), turn) == MoveOutcome(old(Cells()), x, y, old(turn))
      ensures var movements := [(x, y)] + Flips(old(Cells()), x, y, old(turn));
        if |movements| >= 2 && online then
          && history == old(history) + [MakeMovement(MovementData(None, player, movements, None, multiplayer.room), freshId, now)]
          && multiplayer.outbox == old(multiplayer.outbox) + [PlayerMoveSent(history[|history| - 1])]
          && multiplayer.Session() == old(multiplayer.Session())
          && multiplayer.notifications == old(multiplayer.notifications)
        else
          history == old(history) && (online ==> unchanged(multiplayer))
    {
      ghost var g := Cells();
      var flips := GetBetweenChips(x, y, None);
      var movements := [(x, y)] + flips;
      if |movements| < 2 {
        return board;
      }
      ghost var t := turn;
      MovementsOnBoard(g, x, y, t);
      ToggleAll(movements);
      ToggleTurn();
      ghost var after := Cells();
      assert (after, turn) == MoveOutcome(g, x, y, t);
      Publish(movements, freshId, now);
      assert Cells() == after;
      return board;
    }
  }

  /**
   * `OthelloOpponent`: relays a movement received from the session to the
   * engine. It subscribes to the session's `player_move` event when built.
   */
  class OthelloOpponent {
    const game: Othello
    const multiplayer: OthelloMultiplayer

    constructor (game: Othello, multiplayer: OthelloMultiplayer)
      modifies multiplayer
      ensures this.game == game && this.multiplayer == multiplayer
      ensures multiplayer.listeners == old(multiplayer.listeners) + ["player_move"]
      ensures multiplayer.Session() == old(multiplayer.Session()).(7 := multiplayer.listeners)
      ensures multiplayer.outbox == old(multiplayer.outbox) && multiplayer.notifications == old(multiplayer.notifications)
    {
      this.game := game;
      this.multiplayer := multiplayer;
      new;
      multiplayer.AddGameEventListener("player_move");
    }

    /**
     * `onPlayerMove(movement)`: a movement whose player's chip is not the
     * engine's side to move (or whose player has no game state) is ignored;
     * any other is played with `makeMove`.
     */
    method OnPlayerMove(movement: Movement<Coord, OthelloPlayerState>, freshId: string, now: int)
      requires game.Valid()
      requires MovesNow(movement.player, game.turn) ==> 0 <= movement.movement.0 < 8
      modifies game, game.board, game.multiplayer
      ensures game.Valid()
      ensures !MovesNow(movement.player, old(game.turn)) ==>
        unchanged(game) && unchanged(old(game.board)) && (old(game.multiplayer) != null ==> unchanged(old(game.multiplayer)))
      ensures MovesNow(movement.player, old(game.turn)) ==>
        && game.board == old(game.board) && game.state == old(game.state) && game.player == old(game.player)
        && game.online == old(game.online) && game.room == old(game.room)
        && game.multiplayer == old(game.multiplayer) && game.opponent == old(game.opponent)
        && (game.Cells(), game.turn) == MoveOutcome(old(game.Cells()), movement.movement.0, movement.movement.1, old(game.turn))
      ensures MovesNow(movement.player, old(game.turn)) ==>
        var (x, y) := movement.movement;
        var movements := [(x, y)] + Flips(old(game.Cells()), x, y, old(game.turn));
        if |movements| >= 2 && game.online then
          && game.history == old(game.history) + [MakeMovement(MovementData(None, game.player, movements, None, game.multiplayer.room), freshId, now)]
          && game.multiplayer.outbox == old(game.multiplayer.outbox) + [PlayerMoveSent(game.history[|game.history| - 1])]
          && game.multiplayer.Session() == old(game.multiplayer.Session())
          && game.multiplayer.notifications == old(game.multiplayer.notifications)
        else
          game.history == old(game.history) && (game.online ==> unchanged(game.multiplayer))
    {
      if !MovesNow(movement.player, game.turn) {
        return;
      }
      var _ := game.MakeMove(movement.movement.0, movement.movement.1, freshId, now);
    }
  }

  /** The relay's gate: the mover has a game state and its chip is the side to move. */
  predicate MovesNow(p: Player<OthelloPlayerState>, turn: Chip)
  {
    p.gameState.Some? && p.gameState.value.chip == turn
  }
}
