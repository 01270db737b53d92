/**
 * The earlier multiplayer session (web/src/libs/game/Multiplayer.ts), which
 * the legacy engine extends. It keeps the room name, the player limit, a
 * roster and an untyped game state of type `G`; its handlers forward to
 * hook methods that only log, and it sends one event, `room_join`. As in
 * MultiplayerClient, sends go to `outbox` and hook calls to `hooks`.
 */
module LegacyMultiplayerClient {
  import opened Wrappers

  /** The session's own `Player` shape: no game state. */
  datatype LegacyPlayer = LegacyPlayer(id: string, nickname: Option<string>, isOwner: bool)

  /** The one payload this session sends: `room_join` with `{room, maxPlayers}`. */
  datatype JoinRequest = JoinRequest(room: string, maxPlayers: int)

  /** A call of one of the overridable hooks, with its arguments. */
  datatype Hook<G> =
    | PlayerJoinHook(player: LegacyPlayer)
    | PlayerLeaveHook(player: LegacyPlayer)
    | ErrorHook(kind: string)
    | SyncGameHook(gameState: G)

  class LegacyMultiplayer<G> {
    var room: string
    var maxPlayers: int
    var players: map<string, LegacyPlayer>
    /** `#gameState`, unset until the first `sync_game`. */
    var gameState: Option<G>
    var connectRequested: bool
    var outbox: seq<JoinRequest>
    var hooks: seq<Hook<G>>

    /** The constructor: `maxPlayers` defaults to 2 and `autoConnect` to false. */
    constructor (room: string, maxPlayers: Option<int>, autoConnect: Option<bool>)
      ensures this.room == room && this.maxPlayers == maxPlayers.GetOr(2)
      ensures players == map[] && gameState == None
      ensures connectRequested == autoConnect.GetOr(false)
      ensures outbox == [] && hooks == []
    {
      this.room := room;
      this.maxPlayers := maxPlayers.GetOr(2);
      players := map[];
      gameState := None;
      connectRequested := autoConnect.GetOr(false);
      outbox := [];
      hooks := [];
    }

    /** On `connect`: `room_join` with the room name and the player limit. */
    method OnConnect()
      modifies this
      ensures outbox == old(outbox) + [JoinRequest(room, maxPlayers)]
      ensures room == old(room) && maxPlayers == old(maxPlayers) && players == old(players)
      ensures gameState == old(gameState) && connectRequested == old(connectRequested) && hooks == old(hooks)
    {
      outbox := outbox + [JoinRequest(room, maxPlayers)];
    }

    /** On `player_join`: the event itself is stored under its id (the local player is not filtered out). */
    method OnPlayerJoin(event: LegacyPlayer)
      modifies this
      ensures players == old(players)[event.id := event]
      ensures hooks == old(hooks) + [PlayerJoinHook(event)]
      ensures room == old(room) && maxPlayers == old(maxPlayers) && gameState == old(gameState)
      ensures connectRequested == old(connectRequested) && outbox == old(outbox)
    {
      players := players[event.id := event];
      hooks := hooks + [PlayerJoinHook(event)];
    }

    /** On `player_leave`: the id is removed, if present. */
    method OnPlayerLeave(left: LegacyPlayer)
      modifies this
      ensures players == old(players) - {left.id}
      ensures hooks == old(hooks) + [PlayerLeaveHook(left)]
      ensures room == old(room) && maxPlayers == old(maxPlayers) && gameState == old(gameState)
      ensures connectRequested == old(connectRequested) && outbox == old(outbox)
    {
      players := players - {left.id};
      hooks := hooks + [PlayerLeaveHook(left)];
    }

    /** On `room_full`: reported through the error hook. */
    method OnRoomFull()
      modifies this
      ensures hooks == old(hooks) + [ErrorHook("room_full")]
      ensures room == old(room) && maxPlayers == old(maxPlayers) && players == old(players)
      ensures gameState == old(gameState) && connectRequested == old(connectRequested) && outbox == old(outbox)
    {
      hooks := hooks + [ErrorHook("room_full")];
    }

    /** On `sync_game`: the payload is stored as it is and passed to the hook. */
    method OnSyncGame(event: G)
      modifies this
      ensures gameState == Some(event)
      ensures hooks == old(hooks) + [SyncGameHook(event)]
      ensures room == old(room) && maxPlayers == old(maxPlayers) && players == old(players)
      ensures connectRequested == old(connectRequested) && outbox == old(outbox)
    {
      gameState := Some(event);
      hooks := hooks + [SyncGameHook(event)];
    }
  }
}
