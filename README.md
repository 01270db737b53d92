# Othello over a relay server, in Dafny

This project models the core of a two-player Othello game that runs in the
browser and synchronises over a socket relay server. It covers three parts.

- **The rules engines.** There are two browser engines: the current one
  (`Othello` with its `OthelloOpponent` relay) and an older near-copy. The
  server also has a legality-only check. All three run the same direction walk
  on an 8x8 board of EMPTY/WHITE/BLACK:
  - `getBeetweemChips` walks out from the target over opposing chips. On a
    capture it walks back, pushing every cell it steps onto, the origin
    included.
  - `validateMove` asks whether that list is non-empty.
  - `makeMove` sets the origin and the listed cells to the mover's colour.
  - `toggleTurn` passes the turn only if the other colour has a legal move,
    which `hasValidMovements` finds by a full board search.
- **The server's room registry** (`GameRoomManager`). A table maps room names
  to rooms; a roster maps socket ids to players, in insertion order. On
  `room_join`, the registry creates a room on the first join, refuses a full
  room, and keeps "first flagged owner, else promote the joiner". On
  `player_move`, it relays the movement to the whole room.
- **The client sessions.** `Multiplayer`, and the earlier one it replaced,
  turn server events into changes to a local roster, the owner flag and the
  game state. The records they exchange are `Player`, `GameState`,
  `Movement` and `GameRoom`.

The Dafny is laid out as follows.

- `OthelloRules` (othello_rules.dfy) states the rules as functions on board
  values (`Grid = seq<seq<Chip>>`).
  - `RunLength` and `RunEnd` give the outward walk.
  - `DirFlips`, `FlipsUpTo` and `Flips` give the flip list exactly as the
    loops build it.
  - `Legal`, `HasLegal` and `MoveOutcome` give legality, the turn search and
    the effect of a move.
  - Lemmas then say what these mean: the declarative shape of a capture,
    which cells the list holds, how often it holds the origin, and what a
    move does to the board, the chip count and the turn.
- `BoardScan` (board_scan.dfy) holds the loops the two browser engines share,
  written once over the board `array2`. Each loop is proved equal to the
  functions above on the array's contents: the outward walk, the walk back,
  the direction loop, `validateMove`, the 8x8 search and the centre set-up.
- The engine classes (`OthelloEngine.Othello`,
  `LegacyOthelloEngine.LegacyOthello`) own the board array and the side to
  move. Each of their methods is specified by the rules functions on the
  board's contents before and after the call.
- `ServerGame` holds the server's own loop, with its early returns, proved
  equal to `Legal` and to the declarative flanking condition.
- `RoomRegistry` states `roomJoin` as a function `Join` of the room table.
  That function gives the new table, the socket subscriptions and the
  emissions, and lemmas cover each path. The class `GameRoomManager` performs
  the same steps in place and is proved to end in `Join`'s state.
- `MultiplayerClient` and `LegacyMultiplayerClient` are the sessions, as
  classes whose handlers update the fields.
- `PlayerRecord`, `GameStateRecord`, `MovementRecord` and `GameRoomRecord`
  are the records.

Inputs the code draws from the environment are parameters: the socket id of
the sender, `uuid()` (`freshId`) and `Date.now()` (`now`). The sockets are
not modelled. What the server emits is appended to an `outbox` of
(target, event) pairs, where the target is the sender, the room without the
sender, or the whole room. Likewise, what a client sends goes to its `outbox`
and what it dispatches to game listeners goes to `notifications`.

Two behaviours of the server are worth stating outright, since a reader may
expect otherwise.

- The server does not keep one owner per room. A joiner's own `isOwner` flag
  is stored as sent, so a second player claiming the flag becomes a second
  owner (`RoomRegistry.JoinTrustsClaimedOwner`).
- Room creation seeds `config.players` without checking `maxPlayers`
  (`RoomRegistry.SeedingIgnoresCapacity`). Joins to existing rooms do keep
  the bound (`RoomRegistry.JoinKeepsInvariants`).

## Model

| member | source | states |
|---|---|---|
| OthelloRules.Other | web/src/libs/game/Othello/Othello.ts:182-184 | the colour `toggleTurn` tries next is a colour, and differs from a colour it is given |
| OthelloRules.StartGrid | web/src/libs/game/Othello/Othello.ts:58-61 | the start board is 8x8, WHITE at (3,3) and (4,4), BLACK at (3,4) and (4,3), EMPTY elsewhere |
| OthelloRules.Place | web/src/libs/game/Othello/Othello.ts:167-169 | after toggling a list of cells, exactly the listed cells hold the colour and every other cell is as before |
| OthelloRules.RunFacts | web/src/libs/game/Othello/Othello.ts:125-134 | the outward walk steps over opposing on-board chips at steps 0..n-1 and stops on the first cell that is not one, `RunLength` steps out |
| OthelloRules.RunUnique | web/src/libs/game/Othello/Othello.ts:125-134 | conversely, n opposing chips followed by a cell that is not one make a run of length exactly n |
| OthelloRules.DirCapturesIff | web/src/libs/game/Othello/Othello.ts:125-149 | a direction captures iff, for some n >= 1, the cells 1..n steps out hold opposing chips and the cell n+1 steps out holds `turn`; that n is unique and is the walk's run |
| OthelloRules.DirFlipsShape | web/src/libs/game/Othello/Othello.ts:135-145 | a non-capturing direction adds nothing; a capturing one with run n adds n+1 cells, from the far end of the run inward, the last being the origin (x, y) |
| OthelloRules.DirFlipsRun | web/src/libs/game/Othello/Othello.ts:137-141 | the capturing case of the above: the walk back from the closing chip pushes the run and then the origin |
| OthelloRules.DirFlipsCells | web/src/libs/game/Othello/Othello.ts:125-149 | every cell a direction adds is on the board and is the origin or an opposing chip; the origin comes last and only there |
| OthelloRules.DirFlipsNeedColour | web/src/libs/game/Othello/Othello.ts:133-136 | with `turn` EMPTY no direction adds anything, because an EMPTY cell stops the walk before the comparison with `turn` |
| OthelloRules.FlipsUpToIff | web/src/libs/game/Othello/Othello.ts:125-150 | the first k directions add something iff one of them captures |
| OthelloRules.FlipsNonEmptyIff | web/src/libs/game/Othello/Othello.ts:116-153 | `validateMove` is true iff the target is an EMPTY board cell and some direction captures |
| OthelloRules.FlipsOccupiedTarget | web/src/libs/game/Othello/Othello.ts:123 | a non-EMPTY target (or a column off the board) gives an empty list |
| OthelloRules.FlipsCells | web/src/libs/game/Othello/Othello.ts:120-153 | every listed cell is on the board and is the origin or an opposing chip; a legal move has an EMPTY target, lists the origin, and is for a colour |
| OthelloRules.MovementsOnBoard | web/src/libs/game/Othello/Othello.ts:166-169 | the cells `makeMove` toggles for a legal move are all on the board |
| OthelloRules.DirOriginCount | web/src/libs/game/Othello/Othello.ts:137-141 | a capturing direction lists the origin once, and a non-capturing one does not list it |
| OthelloRules.OriginOncePerCapture | web/src/libs/game/Othello/Othello.ts:125-152 | the list holds the origin exactly as many times as there are capturing directions, so it repeats the origin when two or more directions capture |
| OthelloRules.MoveEffect | web/src/libs/game/Othello/Othello.ts:162-191 | a move with no flips leaves board and turn as they were; a legal move sets exactly the origin and the flip cells to the mover's colour, leaves every other cell, adds exactly one chip, and passes the turn iff the other colour then has a legal move |
| OthelloRules.MoveChipCounts | web/src/libs/game/Othello/Othello.ts:162-169 | a legal move gives the mover one chip for the origin plus one per distinct captured cell and takes exactly those captured cells from the other colour; the list of moved cells repeats the origin, so the counts go by distinct cells, not list length |
| OthelloRules.TurnAlternatesWhenPossible | web/src/libs/game/Othello/Othello.ts:182-191 | after a legal move, when the other colour has a legal move the turn changes hands |
| OthelloRules.OpeningMove | web/src/libs/game/Othello/Othello.ts:120-153 | from the start board, BLACK at (2,3) flips exactly (3,3), and the list is [(3,3), (2,3)]; the move is legal |
| OthelloRules.OpeningOutcome | web/src/libs/game/Othello/Othello.ts:162-191 | after BLACK's opening at (2,3) the board holds BLACK at (2,3), (3,3), (3,4) and (4,3), WHITE only at (4,4), EMPTY elsewhere, and the turn passes to WHITE |
| OthelloRules.OpeningAnswer | web/src/libs/game/Othello/Othello.ts:120-153 | on that board WHITE at (2,2) is legal, capturing (3,3) against (4,4), so WHITE has a legal move |
| BoardScan.Snapshot | web/src/libs/game/Othello/Othello.ts:56 | the contents of the board array as an 8x8 value, cell by cell |
| BoardScan.WalkVerdict | web/src/libs/game/Othello/Othello.ts:130-147 | where the outward walk stops decides the direction: it captures iff it stopped on a `turn` chip after at least one opposing chip |
| BoardScan.WalkCaptures | web/src/libs/game/Othello/Othello.ts:135-141 | a walk closed by a `turn` chip after n opposing chips stopped n+1 steps out, and the direction adds the walk back from there |
| BoardScan.WalkBackTo | web/src/libs/game/Othello/Othello.ts:137-141 | the walk-back loop ends at the origin and pushes the cells m-1, ..., 0 steps out, in that order |
| BoardScan.WalkOut | web/src/libs/game/Othello/Othello.ts:126-147 | the outward loop stops on the first cell off the board or not an opposing chip; `foundOpponent` is whether it stepped over any |
| BoardScan.ScanDirection | web/src/libs/game/Othello/Othello.ts:125-150 | one pass of the direction loop pushes exactly that direction's contribution |
| BoardScan.BetweenChips | web/src/libs/game/Othello/Othello.ts:120-153 | `getBeetweemChips` on the array returns the flip list of its contents, including the early empty result for a non-EMPTY target |
| BoardScan.Validate | web/src/libs/game/Othello/Othello.ts:116-118 | `validateMove` is true iff the flip list is non-empty |
| BoardScan.AnyLegal | web/src/libs/game/Othello/Othello.ts:193-203 | `hasValidMovements(c)` is true iff some EMPTY board cell is a legal move for `c` |
| BoardScan.SetCentre | web/src/libs/game/Othello/Othello.ts:58-61 | the four centre assignments set (3,3), (4,4) WHITE and (3,4), (4,3) BLACK and change no other cell |
| OthelloEngine.Othello.Cells | web/src/libs/game/Othello/Othello.ts:56 | the engine's board contents as a value |
| OthelloEngine.Othello.constructor | web/src/libs/game/Othello/Othello.ts:54-89 | plays on the game state's own board with the centre chips placed, BLACK to move; the first listed player becomes the local player with chip BLACK, in the list as well; an online state opens a session (limit 2, connecting at once) and subscribes the opponent relay to `player_move` |
| OthelloEngine.Othello.CreateNewGame | web/src/libs/game/Othello/Othello.ts:99-114 | a new game named "othello" with the drawn id, the start board, BLACK to move, no winner, no moves and the given player as its only player |
| OthelloEngine.Othello.GetBetweenChips | web/src/libs/game/Othello/Othello.ts:120-153 | the result is the flip list of the board for the given colour, or for the side to move when none is given |
| OthelloEngine.Othello.ValidateMove | web/src/libs/game/Othello/Othello.ts:116-118 | true iff the move is legal on the board |
| OthelloEngine.Othello.ToggleChip | web/src/libs/game/Othello/Othello.ts:155-160 | the cell takes the side's colour and no other cell changes |
| OthelloEngine.Othello.ToggleAll | web/src/libs/game/Othello/Othello.ts:167-169 | toggling the move list sets exactly those cells to the side's colour |
| OthelloEngine.Othello.HasValidMovements | web/src/libs/game/Othello/Othello.ts:193-203 | true iff some EMPTY cell is a legal move for the colour |
| OthelloEngine.Othello.ToggleTurn | web/src/libs/game/Othello/Othello.ts:182-191 | the turn passes to the other colour iff that colour has a legal move, else it stays; nothing else changes |
| OthelloEngine.Othello.Publish | web/src/libs/game/Othello/Othello.ts:173-177 | online, one movement of the local player with the cells played is sent and kept in the history; offline nothing is sent |
| OthelloEngine.Othello.MakeMove | web/src/libs/game/Othello/Othello.ts:162-180 | board and turn end as `MoveOutcome` says; a move that flips nothing sends nothing and keeps the history; a legal online move sends exactly one movement carrying the cells played; the board array is returned |
| OthelloEngine.OthelloOpponent.constructor | web/src/libs/game/Othello/Opponent.ts:14-22 | the relay holds the game and the session and subscribes to `player_move` |
| OthelloEngine.OthelloOpponent.OnPlayerMove | web/src/libs/game/Othello/Opponent.ts:24-28 | a movement whose player has no game state or a chip other than the side to move changes nothing; any other has exactly `makeMove`'s effect: the board and turn become the move's outcome, an online legal move is appended to `history` and re-sent once through the session with nothing else of the session changed, and otherwise `history` and the session are unchanged; the engine keeps its board, player, room and session |
| LegacyOthelloEngine.LegacyOthello.Cells | web/src/libs/game/Othello.ts:27-32 | the engine's board contents as a value |
| LegacyOthelloEngine.LegacyOthello.constructor | web/src/libs/game/Othello.ts:20-38 | a session for the room (limit 2, connecting at once) and a fresh board in the start position, BLACK to move |
| LegacyOthelloEngine.LegacyOthello.GetBetweenChips | web/src/libs/game/Othello.ts:48-81 | the flip list of the board, for the given colour or the side to move |
| LegacyOthelloEngine.LegacyOthello.ValidateMove | web/src/libs/game/Othello.ts:44-46 | true iff the move is legal on the board |
| LegacyOthelloEngine.LegacyOthello.ToggleChip | web/src/libs/game/Othello.ts:83-88 | the cell takes the side's colour and no other cell changes |
| LegacyOthelloEngine.LegacyOthello.ToggleAll | web/src/libs/game/Othello.ts:95-97 | toggling the move list sets exactly those cells |
| LegacyOthelloEngine.LegacyOthello.HasValidMovements | web/src/libs/game/Othello.ts:115-125 | true iff some EMPTY cell is a legal move for the colour |
| LegacyOthelloEngine.LegacyOthello.ToggleTurn | web/src/libs/game/Othello.ts:104-113 | the turn passes iff the other colour has a legal move |
| LegacyOthelloEngine.LegacyOthello.MakeMove | web/src/libs/game/Othello.ts:90-102 | board and turn end as `MoveOutcome` says, the same rule as the current engine |
| ServerGame.ScanCaptures | server/src/game.ts:39-65 | one pass of the server's direction loop answers exactly whether that direction captures |
| ServerGame.ValidateMove | server/src/game.ts:18-70 | false on an occupied target or a column off the board; otherwise true iff some direction captures; the answer equals the browser engine's `validateMove` on the same board |
| ServerGame.LegalIffFlanked | server/src/game.ts:39-65 | legality iff the target is EMPTY and, in some direction, cells 1..n (n >= 1) hold opposing chips and cell n+1 holds `player` |
| RoomRegistry.IndexOf | server/src/modules/room.ts:128 | the position of the first entry under a key, or the roster length when the key is absent |
| RoomRegistry.RosterGet | server/src/modules/room.ts:128 | `Map.get` finds a value iff the key is present, and the value is stored under that key |
| RoomRegistry.RosterSetFacts | server/src/modules/room.ts:128 | after `Map.set(k, v)`, `get(k)` is `v`, every other key reads as before, entries keep their places, the size grows iff `k` was new, keys stay distinct |
| RoomRegistry.SeedAllFacts | server/src/modules/room.ts:100-104 | seeding keeps the existing keys in place and appends the seeded ids not yet present, each once, in first-occurrence order, and no other key; every seeded id holds the last player seeded with it and every other key reads as before; distinct keys stay distinct |
| RoomRegistry.FirstOwner | server/src/modules/room.ts:131-132 | the search finds a player iff some entry is flagged owner, and it finds the first flagged one in insertion order |
| RoomRegistry.OwnerCountSet | server/src/modules/room.ts:128-139 | `Map.set` changes the owner count by the new value's flag minus the old value's |
| RoomRegistry.OwnerCountZero | server/src/modules/room.ts:131-134 | no owner is found iff no entry carries the flag |
| RoomRegistry.JoinUnseenRoom | server/src/modules/room.ts:92-148 | a first join creates the room with the joiner flagged owner first under the socket id, then the other seeded ids once each in first-occurrence order and no other key; each seeded id holds the last player seeded with it, the socket id the flagged joiner unless a seeded id overwrote it; `maxPlayers` is the configured one or 2, `game` the configured one; it emits `set_owner` with the flagged joiner to the joiner, then `room_joined` with the room to it, then `player_join` with the flagged joiner to the others, and subscribes the socket |
| RoomRegistry.JoinFullRoom | server/src/modules/room.ts:121-126 | a join to a room with `size >= maxPlayers` emits only `room_full` to the joiner and leaves the table and the subscriptions |
| RoomRegistry.SettledRoster | server/src/modules/room.ts:128-139 | an admission stores the joiner under the socket id (flagged when promoted, else as sent); every other key reads as before; the roster grows by one unless the socket id was present |
| RoomRegistry.JoinerIsSent | server/src/modules/room.ts:134-147 | the broadcast joiner is the sent one, with the owner flag set iff it was sent set or no entry was flagged |
| RoomRegistry.SettledOwner | server/src/modules/room.ts:131-141 | after the owner search the room has an owner, and `set_owner` announces the first flagged entry of the final roster |
| RoomRegistry.JoinExistingRoom | server/src/modules/room.ts:116-148 | an admitted join replaces only that room, subscribes the socket, sends the joiner `room_joined` (as admitted), `set_owner`, `room_joined` (final), and sends the others `player_join` with exactly the stored entry |
| RoomRegistry.JoinKeepsSingleOwner | server/src/modules/room.ts:128-141 | with at most one owner and a joiner not claiming the flag, an admitted join leaves exactly one owner |
| RoomRegistry.JoinTrustsClaimedOwner | server/src/modules/room.ts:128-132 | a second joiner that claims `isOwner` is stored as a second owner |
| RoomRegistry.SeedingIgnoresCapacity | server/src/modules/room.ts:100-112 | a room for two can be created holding three players |
| RoomRegistry.TwoPlayerRoomScenario | server/src/modules/room.ts:87-149 | in a room for two, A creates it and owns it, B is admitted and A stays the only owner, C gets `room_full` and the roster keeps two entries |
| RoomRegistry.JoinKeepsInvariants | server/src/modules/room.ts:87-149 | every join keeps each room filed under its own name with distinct roster keys, and a join to an existing room within capacity keeps it within capacity |
| RoomRegistry.GameRoomManager.constructor | server/src/modules/room.ts:64-75 | a registry starts with no rooms, no subscriptions and nothing sent |
| RoomRegistry.GameRoomManager.OnPlayerMove | server/src/modules/room.ts:77-85 | the movement goes unchanged to the whole room iff the room exists; the table never changes |
| RoomRegistry.GameRoomManager.Seed | server/src/modules/room.ts:100-104 | the loop over `config.players` ends in the seeded roster |
| RoomRegistry.GameRoomManager.CreateRoom | server/src/modules/room.ts:92-115 | the creation branch files the new room and sends `set_owner` with the flagged joiner |
| RoomRegistry.GameRoomManager.AdmitToRoom | server/src/modules/room.ts:116-141 | a full room gets `room_full` and no change; otherwise the room becomes the settled one, and `room_joined` then `set_owner` go to the joiner |
| RoomRegistry.GameRoomManager.AnnounceJoin | server/src/modules/room.ts:144-148 | the socket joins the room, `room_joined` goes to it and `player_join` to the others |
| RoomRegistry.GameRoomManager.RoomJoin | server/src/modules/room.ts:87-149 | the in-place join ends in exactly the table, subscriptions and emissions `Join` gives, and keeps the registry well-formed |
| MultiplayerClient.Multiplayer.constructor | web/src/libs/multiplayer/Multiplayer.ts:63-97 | both limits default to 2 and `autoConnect` to false; the roster and the logs start empty |
| MultiplayerClient.Multiplayer.OnConnect | web/src/libs/multiplayer/Multiplayer.ts:103-110 | exactly one `room_join` is sent, carrying the room, the local player and the current game state; nothing else changes |
| MultiplayerClient.Multiplayer.OnSetOwner | web/src/libs/multiplayer/Multiplayer.ts:114-121 | the local flag becomes whether the announced id is its own; another id marks that roster entry owner; an id in neither place makes the handler throw, after the local flag was cleared |
| MultiplayerClient.Multiplayer.OnPlayerJoin | web/src/libs/multiplayer/Multiplayer.ts:123-131 | the local player's own join is ignored; anyone else is stored as a copy under its id and announced once |
| MultiplayerClient.Multiplayer.OnPlayerLeave | web/src/libs/multiplayer/Multiplayer.ts:133-137 | only that id leaves the roster (an absent id changes nothing) and one notification fires |
| MultiplayerClient.Multiplayer.OnRoomFull | web/src/libs/multiplayer/Multiplayer.ts:139-141 | the room-full notice is passed to the listeners and nothing else changes |
| MultiplayerClient.Multiplayer.OnStartGame | web/src/libs/multiplayer/Multiplayer.ts:143-145 | the listeners get the session's current game state |
| MultiplayerClient.Multiplayer.OnSyncGame | web/src/libs/multiplayer/Multiplayer.ts:147-155 | the payload replaces the game state wholesale (its id kept, or a drawn one) and is announced; a missing payload is caught and changes nothing |
| MultiplayerClient.Multiplayer.AddGameEventListener | web/src/libs/multiplayer/Multiplayer.ts:163-168 | one more subscription is recorded and nothing else changes |
| MultiplayerClient.Multiplayer.PlayerMove | web/src/libs/multiplayer/Multiplayer.ts:170-184 | the returned movement is the one sent: this room, the given player and move, the drawn id and time; roster and game state are unchanged |
| MultiplayerClient.Multiplayer.StartGame | web/src/libs/multiplayer/Multiplayer.ts:186-194 | returns whether the local player is owner, sends nothing and changes nothing |
| MultiplayerClient.Multiplayer.RestartGame | web/src/libs/multiplayer/Multiplayer.ts:196-204 | returns whether the local player is owner, sends nothing and changes nothing |
| MultiplayerClient.MarkOwner | web/src/libs/multiplayer/Multiplayer.ts:119 | marking a remote owner keeps the roster's keys and sets only that entry's flag |
| MultiplayerClient.StaleOwnerFlagsRemain | web/src/libs/multiplayer/Multiplayer.ts:114-121 | ownership updates never clear a remote flag, so two remote players can both end up marked owner |
| LegacyMultiplayerClient.LegacyMultiplayer.constructor | web/src/libs/game/Multiplayer.ts:41-58 | `maxPlayers` defaults to 2 and `autoConnect` to false; the roster starts empty and no game state is held |
| LegacyMultiplayerClient.LegacyMultiplayer.OnConnect | web/src/libs/game/Multiplayer.ts:60-69 | the join request carries the session's room and `maxPlayers` |
| LegacyMultiplayerClient.LegacyMultiplayer.OnPlayerJoin | web/src/libs/game/Multiplayer.ts:71-74 | the event overwrites any entry under its id, with no filtering of the local player |
| LegacyMultiplayerClient.LegacyMultiplayer.OnPlayerLeave | web/src/libs/game/Multiplayer.ts:76-79 | only that id leaves the roster |
| LegacyMultiplayerClient.LegacyMultiplayer.OnRoomFull | web/src/libs/game/Multiplayer.ts:81-83 | reported through the error hook as `room_full` |
| LegacyMultiplayerClient.LegacyMultiplayer.OnSyncGame | web/src/libs/game/Multiplayer.ts:85-92 | the payload becomes the game state as it is |
| GameRoomRecord.GameStateList.Push | web/src/libs/multiplayer/GameRoom.ts:31 | `push` appends one element at the end |
| GameRoomRecord.GameRoom.constructor | web/src/libs/multiplayer/GameRoom.ts:23-33 | the limits default to 2 only when absent, so a given 0 is kept; room, game, players and game state are the given ones; `history` is the caller's own array with the game state appended |
| GameStateRecord.MakeGameState | web/src/libs/multiplayer/GameState.ts:14-26 | a given id is kept and an absent one is the drawn id; game and state are copied |
| GameStateRecord.CreateGameState | web/src/libs/multiplayer/GameState.ts:28-30 | `create` yields the record's own fields and draws no id |
| GameStateRecord.GameStateJson | web/src/libs/multiplayer/GameState.ts:32-38 | `toJson` gives the three fields |
| GameStateRecord.GameStateRoundTrip | web/src/libs/multiplayer/GameState.ts:14-38 | rebuilding from `toJson` gives the same game state, whatever id would have been drawn |
| GameStateRecord.GameStateJsonRoundTrip | web/src/libs/multiplayer/GameState.ts:28-38 | serialising a rebuilt record gives the record back |
| MovementRecord.Movement.Timestamp | web/src/libs/multiplayer/Movement.ts:33-35 | the getter reads the private timestamp |
| MovementRecord.MakeMovement | web/src/libs/multiplayer/Movement.ts:19-31 | a given id and timestamp are kept; absent ones are the drawn id and the current time; player, move and room are copied |
| MovementRecord.MovementJson | web/src/libs/multiplayer/Movement.ts:37-45 | `toJson` gives every field, with id and timestamp present |
| MovementRecord.MovementRoundTrip | web/src/libs/multiplayer/Movement.ts:19-45 | rebuilding from `toJson` gives the same movement, id and timestamp included |
| MovementRecord.MovementIdentity | web/src/libs/multiplayer/Movement.ts:23-28 | two movements from the same id-less data are equal iff the drawn ids are |
| PlayerRecord.CopyPlayer | web/src/libs/multiplayer/Player.ts:15-20 | the copy keeps id, nickname, owner flag and game state, absent fields staying absent |
| PlayerRecord.CopyIdempotent | web/src/libs/multiplayer/Player.ts:15-20 | copying a copy gives the same player, and a copy equals its source field for field |

## Left out

- Sockets, the transport wrapper and its connection wiring are not modelled. That covers socket.io, WebRTC, the server bootstrap, the `connection` handler that registers `room_join` and `player_move`, and `socket.on` registration. Handlers are called directly; sends and emits are appended to outbox logs.
- `uuid()` and `Date.now()` are parameters (`freshId`, `now`), so fresh ids are not proved distinct across calls.
- Console and `debug` logging, the room's logger and Vue `reactive()` (read as identity) are not modelled.
- The wire encoding of a room snapshot is not modelled: a `Map` serialises as `{}`, and the room's logger function goes with it. `room_full` and `room_joined` carry the room as a value.
- Object identity of players is not modelled; players are values, so a copy is independent of its source by construction. In the current engine, the local player is the first listed player of the game state, and the session shares it. The constructor states this by setting that list entry too. Later changes to one copy are not reflected in the other. `createNewGame`'s caller keeps an unchanged value, where the code mutates the caller's object.
- `createNewGame` and the engine constructor receive the board as an array the caller gives, so the two names the code uses for it (`_board` and `state.state.board`) are one array.
- OthelloEngine.Othello.GetBetweenChips: requires the row `x` to be on the board. In the code, `_board[x]` is undefined for another `x`, and the read throws. A column `y` off the board is modelled: it reads `undefined`, which is not EMPTY, so the list is empty. The same goes for ValidateMove and MakeMove in both engines, for BoardScan.BetweenChips, and for ServerGame.ValidateMove.
- OthelloEngine.Othello.ToggleChip: requires the cell on the board, since it is only called with cells of a legal move. Off the board, the JavaScript writes to a missing row, which throws, or it writes an extra property.
- OthelloEngine.OthelloOpponent.OnPlayerMove: takes the movement as a single coordinate pair, as its signature declares. The engine sends a list of cells. The relay is not connected to a session delivery, and in the code it never fires: the session's constructor registers socket handlers only for `connect`, `room_full`, `room_joined`, `player_join`, `player_leave`, `sync_game`, `start_game` and `set_owner` (web/src/libs/multiplayer/Multiplayer.ts:80-94), and nothing dispatches a `player_move` game event to listeners.
- Game event payloads: the current session builds its game event as `new CustomEvent(event, ...args)` (web/src/libs/multiplayer/Multiplayer.ts:157-160), which passes the payload as the event's init dictionary, so the event's `detail` is null and no payload reaches a listener. `notifications` records the payload the code means to deliver.
- OthelloEngine.Othello.constructor: requires the game state to list at least one player. The code reads `players[0]` and then its fields, which throws on an empty list (web/src/libs/game/Othello/Othello.ts:63-67).
- RoomRegistry.Join: seeded `config.players` are stored with the `isOwner` flags they carry, which is a second way for a room to get several owners, besides a joiner claiming the flag.
- GameRoomRecord.GameRoom.constructor: the code keeps the caller's own `players` map, so later changes through either reference are shared. The model copies the map value.
- The earlier session's `onEvent` registration calls a method its base class does not have, and its `room_full` arrow never calls the handler. Its handlers are modelled as called directly.
- The transport's `send` forwards only its first data argument. The outbox records the arguments the session passes, not what reaches the server.
- The winner, game over and chip totals (`totalChips`, `winner`) are carried as data only. The code never computes them. The same holds for server-side history, disconnect handling on the server, and sending `start_game` or `restart_game`, whose sends are commented out.
- web/src/libs/enum.ts is not part of this model: the chip encoding of the older engine and the server is taken to be that of `Chips`.
- RoomRegistry.JoinKeepsSingleOwner: states one owner only for joiners that do not claim the flag. The server trusts the claimed flag, so no stronger statement holds (see RoomRegistry.JoinTrustsClaimedOwner).
- RoomRegistry.JoinKeepsInvariants: keeps the capacity bound only for joins to existing rooms. Room creation seeds players without a capacity check (see RoomRegistry.SeedingIgnoresCapacity).
