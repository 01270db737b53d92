/**
 * The player record of the browser client (web/src/libs/multiplayer/Player.ts):
 * `PlayerData` on the wire and the `Player` class built from it. Both carry
 * the same four fields, so one datatype serves for both; the optional
 * `nickname` and `gameState` are `Option`s (absent = `undefined`).
 */
module PlayerRecord {
  import opened Wrappers

  /** A player: its id, optional nickname, owner flag and game-specific state of type `P`. */
  datatype Player<P> = Player(id: string, nickname: Option<string>, isOwner: bool, gameState: Option<P>)

  /** `new Player(data)`: a fresh record whose four fields are read from `data`, absent fields staying absent. */
  function CopyPlayer<P>(data: Player<P>): (p: Player<P>)
    ensures p.id == data.id
    ensures p.nickname == data.nickname
    ensures p.isOwner == data.isOwner
    ensures p.gameState == data.gameState
  {
    Player(data.id, data.nickname, data.isOwner, data.gameState)
  }

  /** Copying a copy changes nothing: the constructor loses no field and invents none. */
  lemma CopyIdempotent<P>(data: Player<P>)
    ensures CopyPlayer(CopyPlayer(data)) == CopyPlayer(data)
    ensures CopyPlayer(data) == data
  {
  }
}
