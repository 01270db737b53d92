/**
 * The room record of the browser client (web/src/libs/multiplayer/GameRoom.ts).
 * Its constructor copies the fields of its argument, defaults both player
 * limits to 2, and pushes the current game state onto the history array it
 * was handed: the caller's array is shared, not copied, so the push is seen
 * by the caller. That array is the class `GameStateList`.
 */
module GameRoomRecord {
  import opened Wrappers
  import opened PlayerRecord
  import opened GameStateRecord

  /** A JavaScript array of game states, held by reference. */
  class GameStateList<G> {
    var items: seq<GameState<G>>

    constructor (items: seq<GameState<G>>)
      ensures this.items == items
    {
      this.items := items;
    }

    /** `push(s)`: appends one element at the end. */
    method Push(s: GameState<G>)
      modifies this
      ensures items == old(items) + [s]
    {
      items := items + [s];
    }
  }

  /** `GameRoomData`: the constructor's argument; `game`, `maxPlayers` and `minPlayers` may be absent. */
  datatype GameRoomData<G, P> = GameRoomData(
    room: string,
    game: Option<string>,
    maxPlayers: Option<int>,
    minPlayers: Option<int>,
    players: map<string, Player<P>>,
    gameState: GameState<G>,
    history: GameStateList<G>)

  class GameRoom<G, P> {
    var room: string
    var game: Option<string>
    var maxPlayers: int
    var minPlayers: int
    var players: map<string, Player<P>>
    var gameState: GameState<G>
    var history: GameStateList<G>

    /** `new GameRoom(data)`. */
    constructor (data: GameRoomData<G, P>)
      modifies data.history
      ensures room == data.room && game == data.game
      ensures maxPlayers == data.maxPlayers.GetOr(2) && minPlayers == data.minPlayers.GetOr(2)
      ensures players == data.players && gameState == data.gameState
      ensures history == data.history
      ensures history.items == old(data.history.items) + [data.gameState]
    {
      room := data.room;
      game := data.game;
      maxPlayers := data.maxPlayers.GetOr(2);
      minPlayers := data.minPlayers.GetOr(2);
      players := data.players;
      gameState := data.gameState;
      history := data.history;
      new;
      history.Push(gameState);
    }
  }
}
