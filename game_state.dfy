/**
 * The game-state record of the browser client
 * (web/src/libs/multiplayer/GameState.ts): an id, the game's name and the
 * game's own state of type `G`. The constructor draws a fresh `uuid()` when
 * no id is given; that draw is the parameter `freshId` here.
 */
module GameStateRecord {
  import opened Wrappers

  /** The constructor's argument `{id?, game, state}`. */
  datatype GameStateInit<G> = GameStateInit(id: Option<string>, game: string, state: G)

  /** `GameStateData`, the plain object `toJson` returns and `create` accepts: the id is required. */
  datatype GameStateData<G> = GameStateData(id: string, game: string, state: G)

  /** A `GameState` instance. */
  datatype GameState<G> = GameState(id: string, game: string, state: G)

  /** `new GameState(init)`: `game` and `state` are taken as given; the id is the given one, else `freshId`. */
  function MakeGameState<G>(init: GameStateInit<G>, freshId: string): (s: GameState<G>)
    ensures s.game == init.game && s.state == init.state
    ensures init.id.Some? ==> s.id == init.id.value
    ensures init.id.None? ==> s.id == freshId
  {
    GameState(init.id.GetOr(freshId), init.game, init.state)
  }

  /** `GameState.create(data)`: builds from a record that always has an id, so no fresh id is ever drawn. */
  function CreateGameState<G>(data: GameStateData<G>, freshId: string): (s: GameState<G>)
    ensures s.id == data.id && s.game == data.game && s.state == data.state
  {
    MakeGameState(GameStateInit(Some(data.id), data.game, data.state), freshId)
  }

  /** `toJson()`: the three fields as a plain record. */
  function GameStateJson<G>(s: GameState<G>): (d: GameStateData<G>)
    ensures d.id == s.id && d.game == s.game && d.state == s.state
  {
    GameStateData(s.id, s.game, s.state)
  }

  /** Serialising and rebuilding a game state gives it back, whatever id would have been drawn. */
  lemma GameStateRoundTrip<G>(s: GameState<G>, freshId: string)
    ensures CreateGameState(GameStateJson(s), freshId) == s
  {
  }

  /** Rebuilding from a serialised game state and serialising again gives the same record. */
  lemma GameStateJsonRoundTrip<G>(d: GameStateData<G>, freshId: string)
    ensures GameStateJson(CreateGameState(d, freshId)) == d
  {
  }
}
