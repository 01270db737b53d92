/**
 * The multiplayer session of the browser client
 * (web/src/libs/multiplayer/Multiplayer.ts). It keeps the room name, the
 * player limits, a roster of the other players, the current game state and
 * the local player, and reacts to the server's events. The socket is not
 * modelled: what the session hands to `send` is appended to `outbox`, and
 * what it dispatches to the game's listeners is appended to `notifications`.
 * Each `On...` method is one registered socket handler, called as the
 * socket would call it.
 */
module MultiplayerClient {
  import opened Wrappers
  import opened PlayerRecord
  import opened GameStateRecord
  import opened MovementRecord

  /** `MultiplayerConfig`: the limits and `autoConnect` may be absent. */
  datatype MultiplayerConfig<G, P> = MultiplayerConfig(
    room: string,
    maxPlayers: Option<int>,
    minPlayers: Option<int>,
    autoConnect: Option<bool>,
    gameState: GameState<G>,
    player: Player<P>)

  /** A call to the socket's `send`: the event and the arguments the session passes. */
  datatype Outbound<G, M, P> =
    | RoomJoinSent(room: string, player: Player<P>, gameState: GameState<G>)
    | PlayerMoveSent(movement: Movement<M, P>)

  /** An event dispatched to the game's listeners, with the argument the session passes along. */
  datatype Notification<G, P> =
    | PlayerJoined(player: Player<P>)
    | PlayerLeft(player: Player<P>)
    | RoomFullNotice
    | GameStarted(gameState: GameState<G>)
    | GameSynced(gameState: GameState<G>)

  class Multiplayer<G, M, P> {
    var room: string
    var maxPlayers: int
    var minPlayers: int
    /** The other players of the room, by id. */
    var players: map<string, Player<P>>
    var gameState: GameState<G>
    /** The local player. */
    var player: Player<P>
    /** Whether the constructor asked the socket to connect. */
    var connectRequested: bool
    /** The event names game code has subscribed to, in order. */
    var listeners: seq<string>
    var outbox: seq<Outbound<G, M, P>>
    var notifications: seq<Notification<G, P>>

    /** Everything but the two logs. */
    ghost function Session(): (string, int, int, map<string, Player<P>>, GameState<G>, Player<P>, bool, seq<string>)
      reads this
    {
      (room, maxPlayers, minPlayers, players, gameState, player, connectRequested, listeners)
    }

    /** `new Multiplayer(config)`: both limits default to 2 and `autoConnect` to false; the roster starts empty. */
    constructor (config: MultiplayerConfig<G, P>)
      ensures room == config.room
      ensures maxPlayers == config.maxPlayers.GetOr(2) && minPlayers == config.minPlayers.GetOr(2)
      ensures gameState == config.gameState && player == config.player
      ensures players == map[] && listeners == []
      ensures connectRequested == config.autoConnect.GetOr(false)
      ensures outbox == [] && notifications == []
    {
      room := config.room;
      maxPlayers := config.maxPlayers.GetOr(2);
      minPlayers := config.minPlayers.GetOr(2);
      gameState := config.gameState;
      player := config.player;
      players := map[];
      listeners := [];
      connectRequested := config.autoConnect.GetOr(false);
      outbox := [];
      notifications := [];
    }

    /** On `connect`: join the room, sending its name, the local player and the current game state. */
    method OnConnect()
      modifies this
      ensures outbox == old(outbox) + [RoomJoinSent(room, player, gameState)]
      ensures Session() == old(Session()) && notifications == old(notifications)
    {
      outbox := outbox + [RoomJoinSent(room, player, gameState)];
    }

    /**
     * On `set_owner`: the local player is owner exactly when the announced id
     * is its own; otherwise the announced player is marked owner in the
     * roster. An announced id that is neither the local player's nor in the
     * roster makes the `!` lookup fail: the handler throws (`threw`) after
     * clearing the local flag.
     */
    method OnSetOwner(owner: Player<P>) returns (threw: bool)
      modifies this
      ensures threw <==> owner.id != old(player.id) && owner.id !in old(players)
      ensures player == old(player).(isOwner := owner.id == old(player.id))
      ensures !threw && owner.id != old(player.id) ==>
        players == MarkOwner(old(players), owner.id)
      ensures threw || owner.id == old(player.id) ==> players == old(players)
      ensures room == old(room) && gameState == old(gameState) && connectRequested == old(connectRequested) && listeners == old(listeners)
      ensures maxPlayers == old(maxPlayers) && minPlayers == old(minPlayers)
      ensures outbox == old(outbox) && notifications == old(notifications)
    {
      if owner.id == player.id {
        player := player.(isOwner := true);
        threw := false;
      } else {
        player := player.(isOwner := false);
        if owner.id in players {
          players := MarkOwner(players, owner.id);
          threw := false;
        } else {
          threw := true;
        }
      }
    }

    /** On `player_join`: the local player's own announcement is ignored; anyone else is stored and announced. */
    method OnPlayerJoin(joined: Player<P>)
      modifies this
      ensures joined.id == old(player.id) ==>
        players == old(players) && notifications == old(notifications)
      ensures joined.id != old(player.id) ==>
        players == old(players)[joined.id := CopyPlayer(joined)] &&
        notifications == old(notifications) + [PlayerJoined(CopyPlayer(joined))]
      ensures room == old(room) && gameState == old(gameState) && player == old(player)
      ensures maxPlayers == old(maxPlayers) && minPlayers == old(minPlayers)
      ensures connectRequested == old(connectRequested) && listeners == old(listeners) && outbox == old(outbox)
    {
      if joined.id == player.id {
        return;
      }
      players := players[joined.id := CopyPlayer(joined)];
      notifications := notifications + [PlayerJoined(CopyPlayer(joined))];
    }

    /** On `player_leave`: the player is removed from the roster (if present) and the departure announced. */
    method OnPlayerLeave(left: Player<P>)
      modifies this
      ensures players == old(players) - {left.id}
      ensures notifications == old(notifications) + [PlayerLeft(CopyPlayer(left))]
      ensures room == old(room) && gameState == old(gameState) && player == old(player)
      ensures maxPlayers == old(maxPlayers) && minPlayers == old(minPlayers)
      ensures connectRequested == old(connectRequested) && listeners == old(listeners) && outbox == old(outbox)
    {
      players := players - {left.id};
      notifications := notifications + [PlayerLeft(CopyPlayer(left))];
    }

    /** On `room_full`: passed on to the listeners. */
    method OnRoomFull()
      modifies this
      ensures notifications == old(notifications) + [RoomFullNotice]
      ensures Session() == old(Session()) && outbox == old(outbox)
    {
      notifications := notifications + [RoomFullNotice];
    }

    /** On `start_game`: the listeners get the session's current game state (not the server's payload). */
    method OnStartGame()
      modifies this
      ensures notifications == old(notifications) + [GameStarted(gameState)]
      ensures Session() == old(Session()) && outbox == old(outbox)
    {
      notifications := notifications + [GameStarted(gameState)];
    }

    /**
     * On `sync_game`: the payload replaces the game state (a fresh id is
     * drawn when it has none) and is announced. A missing payload makes the
     * constructor's destructuring throw; the error is caught and logged and
     * nothing changes.
     */
    method OnSyncGame(payload: Option<GameStateInit<G>>, freshId: string)
      modifies this
      ensures payload.None? ==> gameState == old(gameState) && notifications == old(notifications)
      ensures payload.Some? ==>
        gameState == MakeGameState(payload.value, freshId) &&
        notifications == old(notifications) + [GameSynced(gameState)]
      ensures room == old(room) && players == old(players) && player == old(player)
      ensures maxPlayers == old(maxPlayers) && minPlayers == old(minPlayers)
      ensures connectRequested == old(connectRequested) && listeners == old(listeners) && outbox == old(outbox)
    {
      if payload.Some? {
        gameState := MakeGameState(payload.value, freshId);
        notifications := notifications + [GameSynced(gameState)];
      }
    }

    /** `addGameEventListener(event, callback)`: one more subscription; the callback itself is not modelled. */
    method AddGameEventListener(event: string)
      modifies this
      ensures listeners == old(listeners) + [event]
      ensures room == old(room) && players == old(players) && player == old(player) && gameState == old(gameState)
      ensures maxPlayers == old(maxPlayers) && minPlayers == old(minPlayers)
      ensures connectRequested == old(connectRequested)
      ensures outbox == old(outbox) && notifications == old(notifications)
    {
      listeners := listeners + [event];
    }

    /**
     * `playerMove(p, movement)`: builds a movement for this room with a fresh
     * id and the current time, sends it, and returns it.
     */
    method PlayerMove(p: Player<P>, movement: M, freshId: string, now: int) returns (m: Movement<M, P>)
      modifies this
      ensures m.player == p && m.movement == movement && m.room == room
      ensures m.id == freshId && m.Timestamp() == now
      ensures outbox == old(outbox) + [PlayerMoveSent(m)]
      ensures Session() == old(Session()) && notifications == old(notifications)
    {
      m := MakeMovement(MovementData(None, p, movement, None, room), freshId, now);
      outbox := outbox + [PlayerMoveSent(m)];
    }

    /** `startGame()`: allowed exactly for the room's owner (nothing is sent). */
    method StartGame() returns (started: bool)
      ensures started == player.isOwner
    {
      started := player.isOwner;
    }

    /** `restartGame()`: allowed exactly for the room's owner (nothing is sent). */
    method RestartGame() returns (restarted: bool)
      ensures restarted == player.isOwner
    {
      restarted := player.isOwner;
    }
  }

  /** The roster after `set_owner` names a remote player `id`: that entry's flag is set. */
  function MarkOwner<P>(players: map<string, Player<P>>, id: string): (r: map<string, Player<P>>)
    requires id in players
    ensures r.Keys == players.Keys
    ensures forall k :: k in r ==> r[k] == players[k].(isOwner := players[k].isOwner || k == id)
  {
    players[id := players[id].(isOwner := true)]
  }

  /**
   * `set_owner` only ever sets roster flags, never clears them: a remote
   * player once announced as owner stays flagged when a later announcement
   * names another, so two remote players can both be marked owner.
   */
  lemma StaleOwnerFlagsRemain<P>(a: Player<P>, b: Player<P>)
    requires a.id != b.id && a.isOwner
    ensures var before := map[a.id := a, b.id := b];
      var after := MarkOwner(before, b.id);
      after[a.id].isOwner && after[b.id].isOwner
  {
  }
}
