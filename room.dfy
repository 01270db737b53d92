/**
 * The server's room registry, `GameRoomManager` in
 * server/src/modules/room.ts. It keeps a table from room name to room; a
 * room's roster is a JavaScript `Map` from socket id to player, and the
 * owner search depends on its insertion order, so a roster here is an
 * association list in insertion order. The sockets are not modelled: the id
 * of the socket an event arrives on is a parameter, `socket.join(room)` adds
 * the pair (socket id, room) to `subscriptions`, and every `emit` is
 * appended to `outbox` together with who it is addressed to. Payloads are
 * recorded as the values they hold at the moment of the `emit`.
 */
module RoomRegistry {
  import opened Wrappers

  /** The server's `Player`: `socketId` is part of the record, the roster key is separate. */
  datatype Player<P> = Player(id: string, nickname: Option<string>, isOwner: bool, socketId: string, gameState: Option<P>)

  /** A room's `players` map, in insertion order. */
  type Roster<P> = seq<(string, Player<P>)>

  /** A room of the table; its debug logger is not modelled. */
  datatype Room<P> = Room(room: string, game: Option<string>, maxPlayers: int, players: Roster<P>)

  /** The optional third argument of `room_join`: any of its properties may be absent. */
  datatype JoinConfig<P> = JoinConfig(game: Option<string>, maxPlayers: Option<int>, players: Option<seq<Player<P>>>)

  /** A relayed `player_move` payload. */
  datatype Movement<M, P> = Movement(id: Option<string>, room: string, player: Player<P>, movement: M, timestamp: Option<int>)

  /**
   * Who an emission reaches: `socket.emit` (the joining socket),
   * `socket.broadcast.to(room)` (the room's sockets but the sender) and
   * `io.to(room)` (every socket in the room).
   */
  datatype Target = ToSelf(socket: string) | ToOthersInRoom(sender: string, room: string) | ToAllInRoom(room: string)

  datatype ServerEvent<M, P> =
    | SetOwner(owner: Player<P>)
    | RoomFull(snapshot: Room<P>)
    | RoomJoined(name: string, snapshot: Room<P>)
    | PlayerJoin(joiner: Player<P>)
    | PlayerMove(movement: Movement<M, P>)

  datatype Emission<M, P> = Emission(target: Target, event: ServerEvent<M, P>)

  // ---------------------------------------------------------------------
  // Rosters: the JavaScript Map operations the registry uses.

  predicate HasKey<P>(r: Roster<P>, k: string)
  {
    exists i :: 0 <= i < |r| && r[i].0 == k
  }

  predicate UniqueKeys<P>(r: Roster<P>)
  {
    forall a, b :: 0 <= a < b < |r| ==> r[a].0 != r[b].0
  }

  /** The position of key `k`, or `|r|` when it is absent. */
  function IndexOf<P>(r: Roster<P>, k: string): (i: nat)
    ensures i <= |r|
    ensures i < |r| ==> r[i].0 == k
    ensures forall j :: 0 <= j < i ==> r[j].0 != k
  {
    if r == [] then 0 else if r[0].0 == k then 0 else 1 + IndexOf(r[1..], k)
  }

  /** `Map.get`. */
  function RosterGet<P>(r: Roster<P>, k: string): (o: Option<Player<P>>)
    ensures o.Some? <==> HasKey(r, k)
    ensures o.Some? ==> exists i :: 0 <= i < |r| && r[i] == (k, o.value)
  {
    var i := IndexOf(r, k);
    if i < |r| then Some(r[i].1) else None
  }

  /**
   * `Map.set`: a present key keeps its place and gets the new value; an
   * absent key is appended.
   */
  function RosterSet<P>(r: Roster<P>, k: string, v: Player<P>): Roster<P>
  {
    var i := IndexOf(r, k);
    if i < |r| then r[i := (k, v)] else r + [(k, v)]
  }

  /** The `for` loop over `config.players`, as a fold: each player is set under its own `id`. */
  function SeedAll<P>(r: Roster<P>, ps: seq<Player<P>>): Roster<P>
  {
    if ps == [] then r else RosterSet(SeedAll(r, ps[..|ps| - 1]), ps[|ps| - 1].id, ps[|ps| - 1])
  }

  /** The last of the seeded players whose `id` is `k`: the one a later `set` leaves in place. */
  function LastWithId<P>(ps: seq<Player<P>>, k: string): (o: Option<Player<P>>)
    ensures o.Some? <==> exists p :: p in ps && p.id == k
    ensures o.Some? ==> o.value in ps && o.value.id == k
  {
    if ps == [] then None
    else if ps[|ps| - 1].id == k then Some(ps[|ps| - 1])
    else
      assert forall p :: p in ps && p.id == k ==> p in ps[..|ps| - 1];
      LastWithId(ps[..|ps| - 1], k)
  }

  /** A player with id `k` that no later player shares its id with is the one found. */
  lemma {:induction false} LastWithIdAt<P>(ps: seq<Player<P>>, k: string, i: nat)
    requires i < |ps| && ps[i].id == k
    requires forall j :: i < j < |ps| ==> ps[j].id != k
    ensures LastWithId(ps, k) == Some(ps[i])
  {
    if i < |ps| - 1 {
      LastWithIdAt(ps[..|ps| - 1], k, i);
    }
  }

  /** A roster's keys, in insertion order. */
  function Keys<P>(r: Roster<P>): (ks: seq<string>)
    ensures |ks| == |r| && forall i :: 0 <= i < |r| ==> ks[i] == r[i].0
  {
    seq(|r|, i requires 0 <= i < |r| => r[i].0)
  }

  /** The ids of `ps` not among `keys`, each once, in the order of their first occurrence. */
  function FreshIds<P>(keys: seq<string>, ps: seq<Player<P>>): seq<string>
  {
    if ps == [] then []
    else
      var f := FreshIds(keys, ps[..|ps| - 1]);
      var k := ps[|ps| - 1].id;
      if k in keys || k in f then f else f + [k]
  }

  /** `Array.from(players.values()).find(p => p.isOwner)`. */
  function FirstOwner<P>(r: Roster<P>): (o: Option<Player<P>>)
    ensures o.Some? <==> exists i :: 0 <= i < |r| && r[i].1.isOwner
    ensures o.Some? ==> o.value.isOwner
    ensures o.Some? ==> exists i :: 0 <= i < |r| && r[i].1 == o.value && forall j :: 0 <= j < i ==> !r[j].1.isOwner
  {
    if r == [] then None
    else if r[0].1.isOwner then Some(r[0].1)
    else
      var o := FirstOwner(r[1..]);
      assert o.Some? ==> exists i :: 0 <= i < |r[1..]| && r[1..][i].1 == o.value && forall j :: 0 <= j < i ==> !r[1..][j].1.isOwner;
      assert o.Some? ==> exists i :: 1 <= i < |r| && r[i].1 == o.value && forall j :: 0 <= j < i ==> !r[j].1.isOwner;
      o
  }

  /** How many roster entries carry the owner flag. */
  function OwnerCount<P>(r: Roster<P>): nat
  {
    if r == [] then 0 else (if r[0].1.isOwner then 1 else 0) + OwnerCount(r[1..])
  }

  function Flag(b: bool): nat { if b then 1 else 0 }

  // ---------------------------------------------------------------------
  // What the Map operations guarantee.

  /**
   * After `set(k, v)`, `get(k)` is `v` and every other key reads as before;
   * existing entries keep their keys and places, the size grows exactly when
   * `k` was absent, and distinct keys stay distinct.
   */
  lemma RosterSetFacts<P>(r: Roster<P>, k: string, v: Player<P>)
    ensures RosterGet(RosterSet(r, k, v), k) == Some(v)
    ensures forall k' :: k' != k ==> RosterGet(RosterSet(r, k, v), k') == RosterGet(r, k')
    ensures forall i :: 0 <= i < |r| ==> RosterSet(r, k, v)[i].0 == r[i].0
    ensures |RosterSet(r, k, v)| == if HasKey(r, k) then |r| else |r| + 1
    ensures !HasKey(r, k) ==> RosterSet(r, k, v) == r + [(k, v)]
    ensures UniqueKeys(r) ==> UniqueKeys(RosterSet(r, k, v))
  {
    var s := RosterSet(r, k, v);
    var i := IndexOf(r, k);
    forall k' | k' != k
      ensures RosterGet(s, k') == RosterGet(r, k')
    {
      IndexOfAfterSet(r, k, v, k');
    }
    IndexOfAfterSet(r, k, v, k);
  }

  lemma IndexOfAfterSet<P>(r: Roster<P>, k: string, v: Player<P>, k': string)
    ensures var s := RosterSet(r, k, v);
      if k' == k then IndexOf(s, k') < |s| && s[IndexOf(s, k')] == (k, v)
      else (IndexOf(r, k') < |r| ==> IndexOf(s, k') == IndexOf(r, k') && s[IndexOf(r, k')] == r[IndexOf(r, k')]) && (IndexOf(r, k') == |r| ==> IndexOf(s, k') == |s|)
  {
    var s := RosterSet(r, k, v);
    var i := IndexOf(r, k);
    assert forall j :: 0 <= j < i ==> s[j] == r[j];
    assert forall j :: 0 <= j < |s| ==> s[j].0 == k || (j < |r| && s[j] == r[j]);
    if k' == k {
      IndexOfFirst(s, k, i);
    } else {
      var i' := IndexOf(r, k');
      if i' < |r| {
        IndexOfFirst(s, k', i');
      } else {
        IndexOfAbsent(s, k');
      }
    }
  }

  /** The first position holding `k` is where `IndexOf` finds it. */
  lemma {:induction false} IndexOfFirst<P>(s: Roster<P>, k: string, i: nat)
    requires i < |s| && s[i].0 == k
    requires forall j :: 0 <= j < i ==> s[j].0 != k
    ensures IndexOf(s, k) == i
  {
    if i > 0 {
      IndexOfFirst(s[1..], k, i - 1);
    }
  }

  lemma {:induction false} IndexOfAbsent<P>(s: Roster<P>, k: string)
    requires forall j :: 0 <= j < |s| ==> s[j].0 != k
    ensures IndexOf(s, k) == |s|
  {
    if s != [] {
      IndexOfAbsent(s[1..], k);
    }
  }

  /**
   * Seeding keeps the first roster's keys in their places and appends the
   * seeded ids not yet present, each once, in the order they first occur; it
   * adds no other key. Under every seeded id it stores the last player seeded
   * with that id, every other key reads as before, and distinct keys stay
   * distinct. Nothing bounds the size.
   */
  lemma {:induction false} SeedAllFacts<P>(r: Roster<P>, ps: seq<Player<P>>)
    ensures |SeedAll(r, ps)| >= |r|
    ensures forall i :: 0 <= i < |r| ==> SeedAll(r, ps)[i].0 == r[i].0
    ensures forall k :: HasKey(SeedAll(r, ps), k) <==> HasKey(r, k) || exists p :: p in ps && p.id == k
    ensures ps != [] ==> RosterGet(SeedAll(r, ps), ps[|ps| - 1].id) == Some(ps[|ps| - 1])
    ensures UniqueKeys(r) ==> UniqueKeys(SeedAll(r, ps))
    ensures forall k :: RosterGet(SeedAll(r, ps), k) == if LastWithId(ps, k).Some? then LastWithId(ps, k) else RosterGet(r, k)
    ensures Keys(SeedAll(r, ps)) == Keys(r) + FreshIds(Keys(r), ps)
  {
    SeedAllBasics(r, ps);
    SeedAllKeys(r, ps);
    forall k
      ensures RosterGet(SeedAll(r, ps), k) == if LastWithId(ps, k).Some? then LastWithId(ps, k) else RosterGet(r, k)
    {
      SeedAllGet(r, ps, k);
    }
  }

  /** The key and size facts of SeedAllFacts, by induction on the seeded players. */
  lemma {:induction false} SeedAllBasics<P>(r: Roster<P>, ps: seq<Player<P>>)
    ensures |SeedAll(r, ps)| >= |r|
    ensures forall i :: 0 <= i < |r| ==> SeedAll(r, ps)[i].0 == r[i].0
    ensures forall k :: HasKey(SeedAll(r, ps), k) <==> HasKey(r, k) || exists p :: p in ps && p.id == k
    ensures ps != [] ==> RosterGet(SeedAll(r, ps), ps[|ps| - 1].id) == Some(ps[|ps| - 1])
    ensures UniqueKeys(r) ==> UniqueKeys(SeedAll(r, ps))
  {
    if ps != [] {
      var init := ps[..|ps| - 1];
      var last := ps[|ps| - 1];
      SeedAllBasics(r, init);
      var s := SeedAll(r, init);
      RosterSetFacts(s, last.id, last);
      assert SeedAll(r, ps) == RosterSet(s, last.id, last);
      forall k
        ensures HasKey(SeedAll(r, ps), k) <==> HasKey(r, k) || exists p :: p in ps && p.id == k
      {
        RosterGetKey(s, last.id, last, k);
        if exists p :: p in init && p.id == k {
          var p :| p in init && p.id == k;
          assert p in ps;
        }
        if exists p :: p in ps && p.id == k && p != last {
          var p :| p in ps && p.id == k && p != last;
          assert p in init;
        }
      }
    }
  }

  /** A key is present after `set` exactly when it was present or is the set key. */
  lemma RosterGetKey<P>(r: Roster<P>, k: string, v: Player<P>, k': string)
    ensures HasKey(RosterSet(r, k, v), k') <==> HasKey(r, k') || k' == k
  {
    RosterSetFacts(r, k, v);
    assert RosterGet(RosterSet(r, k, v), k').Some? <==> HasKey(RosterSet(r, k, v), k');
  }

  /** Replacing one entry changes the owner count by the difference of the two flags. */
  lemma {:induction false} OwnerCountUpdate<P>(r: Roster<P>, i: nat, e: (string, Player<P>))
    requires i < |r|
    ensures OwnerCount(r[i := e]) + Flag(r[i].1.isOwner) == OwnerCount(r) + Flag(e.1.isOwner)
  {
    if i > 0 {
      OwnerCountUpdate(r[1..], i - 1, e);
      assert r[i := e][1..] == r[1..][i - 1 := e];
    }
  }

  lemma {:induction false} OwnerCountAppend<P>(r: Roster<P>, e: (string, Player<P>))
    ensures OwnerCount(r + [e]) == OwnerCount(r) + Flag(e.1.isOwner)
  {
    if r != [] {
      OwnerCountAppend(r[1..], e);
      assert (r + [e])[1..] == r[1..] + [e];
    }
  }

  /** `set(k, v)` trades the flag of the old value under `k` (if any) for `v`'s. */
  lemma OwnerCountSet<P>(r: Roster<P>, k: string, v: Player<P>)
    ensures OwnerCount(RosterSet(r, k, v)) + Flag(RosterGet(r, k).Some? && RosterGet(r, k).value.isOwner)
      == OwnerCount(r) + Flag(v.isOwner)
  {
    var i := IndexOf(r, k);
    if i < |r| {
      OwnerCountUpdate(r, i, (k, v));
    } else {
      OwnerCountAppend(r, (k, v));
    }
  }

  /** No owner is found exactly when no entry carries the flag. */
  lemma {:induction false} OwnerCountZero<P>(r: Roster<P>)
    ensures OwnerCount(r) == 0 <==> FirstOwner(r).None?
  {
    if r != [] {
      OwnerCountZero(r[1..]);
      if !r[0].1.isOwner {
        assert forall i :: 1 <= i < |r| ==> r[i] == r[1..][i - 1];
      }
    }
  }

  // ---------------------------------------------------------------------
  // `roomJoin` as a function of the table: what it leaves and what it sends.

  /** The room table, the socket subscriptions and the emissions of one event. */
  datatype Step<M, P> = Step(rooms: map<string, Room<P>>, subscriptions: set<(string, string)>, sent: seq<Emission<M, P>>)

  function ConfigGame<P>(config: Option<JoinConfig<P>>): Option<string>
  {
    if config.Some? then config.value.game else None
  }

  function ConfigMax<P>(config: Option<JoinConfig<P>>): int
  {
    if config.Some? then config.value.maxPlayers.GetOr(2) else 2
  }

  function ConfigPlayers<P>(config: Option<JoinConfig<P>>): seq<Player<P>>
  {
    if config.Some? && config.value.players.Some? then config.value.players.value else []
  }

  /** The room a first join creates: the joiner, flagged owner, under the socket id, then the seeded players. */
  function NewRoom<P>(sid: string, room: string, player: Player<P>, config: Option<JoinConfig<P>>): Room<P>
  {
    Room(room, ConfigGame(config), ConfigMax(config), SeedAll([(sid, player.(isOwner := true))], ConfigPlayers(config)))
  }

  /** The joiner stored in an existing room, before the owner search. */
  function Admitted<P>(r: Room<P>, sid: string, player: Player<P>): Room<P>
  {
    r.(players := RosterSet(r.players, sid, player))
  }

  /** The owner `set_owner` announces after an admission: the first flagged player, else the promoted joiner. */
  function Announced<P>(r: Room<P>, sid: string, player: Player<P>): Player<P>
  {
    FirstOwner(Admitted(r, sid, player).players).GetOr(player.(isOwner := true))
  }

  /** The joiner as the `player_join` broadcast carries it. */
  function Joiner<P>(r: Room<P>, sid: string, player: Player<P>): Player<P>
  {
    if FirstOwner(Admitted(r, sid, player).players).Some? then player else player.(isOwner := true)
  }

  /** The room after an admission and the owner search. */
  function Settled<P>(r: Room<P>, sid: string, player: Player<P>): Room<P>
  {
    var a := Admitted(r, sid, player);
    if FirstOwner(a.players).Some? then a else a.(players := RosterSet(a.players, sid, player.(isOwner := true)))
  }

  predicate IsFull<P>(r: Room<P>)
  {
    |r.players| >= r.maxPlayers
  }

  function Join<M, P>(rooms: map<string, Room<P>>, subscriptions: set<(string, string)>,
                      sid: string, room: string, player: Player<P>, config: Option<JoinConfig<P>>): Step<M, P>
  {
    if room !in rooms then
      var created := NewRoom(sid, room, player, config);
      Step(rooms[room := created], subscriptions + {(sid, room)},
           [ Emission(ToSelf(sid), SetOwner(player.(isOwner := true))),
             Emission(ToSelf(sid), RoomJoined(room, created)),
             Emission(ToOthersInRoom(sid, room), PlayerJoin(player.(isOwner := true))) ])
    else if IsFull(rooms[room]) then
      Step(rooms, subscriptions, [Emission(ToSelf(sid), RoomFull(rooms[room]))])
    else
      var r := rooms[room];
      var settled := Settled(r, sid, player);
      Step(rooms[room := settled], subscriptions + {(sid, room)},
           [ Emission(ToSelf(sid), RoomJoined(r.room, Admitted(r, sid, player))),
             Emission(ToSelf(sid), SetOwner(Announced(r, sid, player))),
             Emission(ToSelf(sid), RoomJoined(settled.room, settled)),
             Emission(ToOthersInRoom(sid, room), PlayerJoin(Joiner(r, sid, player))) ])
  }

  /** Every room is filed under its own name and its roster keys are distinct. */
  ghost predicate WellFormed<P>(rooms: map<string, Room<P>>)
  {
    forall name :: name in rooms ==> rooms[name].room == name && UniqueKeys(rooms[name].players)
  }

  predicate WithinCapacity<P>(r: Room<P>)
  {
    |r.players| <= r.maxPlayers
  }

  // ---------------------------------------------------------------------
  // What a join guarantees.

  /**
   * A join to an unseen room creates it: the joiner, flagged owner, is the
   * first entry under the socket id, followed by the seeded ids not equal to
   * it, each once, in first-occurrence order, and no other key; every seeded
   * id holds the last player seeded with it, and the socket id the flagged
   * joiner unless a seeded id overwrote it. `maxPlayers` is the configured
   * one or 2 and `game` the configured one. It sends `set_owner` with the
   * flagged joiner and then `room_joined` to the joiner, then `player_join`
   * with the flagged joiner to the others.
   */
  lemma JoinUnseenRoom<M, P>(rooms: map<string, Room<P>>, subs: set<(string, string)>,
                             sid: string, room: string, player: Player<P>, config: Option<JoinConfig<P>>)
    requires room !in rooms
    ensures var res := Join<M, P>(rooms, subs, sid, room, player, config);
      && room in res.rooms
      && var r := res.rooms[room];
      && |r.players| >= 1 && r.players[0].0 == sid
      && (forall k :: HasKey(r.players, k) <==> k == sid || exists p :: p in ConfigPlayers(config) && p.id == k)
      && ((forall p :: p in ConfigPlayers(config) ==> p.id != sid) ==> RosterGet(r.players, sid) == Some(player.(isOwner := true)))
      && r.maxPlayers == (if config.Some? && config.value.maxPlayers.Some? then config.value.maxPlayers.value else 2)
      && r.game == (if config.Some? then config.value.game else None)
      && UniqueKeys(r.players)
      && res.subscriptions == subs + {(sid, room)}
      && (forall name :: name != room ==> (name in res.rooms <==> name in rooms) && (name in rooms ==> res.rooms[name] == rooms[name]))
      && |res.sent| == 3
      && res.sent[0] == Emission(ToSelf(sid), SetOwner(player.(isOwner := true)))
      && res.sent[0].event.owner.isOwner
      && res.sent[1] == Emission(ToSelf(sid), RoomJoined(room, r))
      && res.sent[2] == Emission(ToOthersInRoom(sid, room), PlayerJoin(player.(isOwner := true)))
      && Keys(r.players) == [sid] + FreshIds([sid], ConfigPlayers(config))
      && (forall k :: RosterGet(r.players, k) ==
            if LastWithId(ConfigPlayers(config), k).Some? then LastWithId(ConfigPlayers(config), k)
            else if k == sid then Some(player.(isOwner := true)) else None)
  {
    CreatedRoster(sid, player.(isOwner := true), ConfigPlayers(config));
  }

  /** The roster a first join builds: the flagged joiner under the socket id, then the seeded players. */
  lemma CreatedRoster<P>(sid: string, joiner: Player<P>, ps: seq<Player<P>>)
    ensures var s := SeedAll([(sid, joiner)], ps);
      && |s| >= 1 && s[0].0 == sid
      && (forall k :: HasKey(s, k) <==> k == sid || exists p :: p in ps && p.id == k)
      && ((forall p :: p in ps ==> p.id != sid) ==> RosterGet(s, sid) == Some(joiner))
      && UniqueKeys(s)
      && Keys(s) == [sid] + FreshIds([sid], ps)
      && (forall k :: RosterGet(s, k) == if LastWithId(ps, k).Some? then LastWithId(ps, k) else if k == sid then Some(joiner) else None)
  {
    var base: Roster<P> := [(sid, joiner)];
    SeedAllFacts(base, ps);
    var s := SeedAll(base, ps);
    forall k
      ensures HasKey(s, k) <==> k == sid || exists p :: p in ps && p.id == k
    {
      if k == sid {
        assert base[0].0 == k;
      }
    }
    assert Keys(base) == [sid];
    forall k
      ensures RosterGet(s, k) == if LastWithId(ps, k).Some? then LastWithId(ps, k) else if k == sid then Some(joiner) else None
    {
      if k == sid {
        RosterGetFirst(base, sid);
      } else {
        assert !HasKey(base, k);
      }
    }
  }

  lemma RosterGetFirst<P>(r: Roster<P>, k: string)
    requires |r| >= 1 && r[0].0 == k
    ensures RosterGet(r, k) == Some(r[0].1)
  {
  }

  /** After seeding, `get(k)` is the last seeded player with id `k`, or what it was when there is none. */
  lemma {:induction false} SeedAllGet<P>(r: Roster<P>, ps: seq<Player<P>>, k: string)
    ensures RosterGet(SeedAll(r, ps), k) == if LastWithId(ps, k).Some? then LastWithId(ps, k) else RosterGet(r, k)
  {
    if ps != [] {
      SeedAllGet(r, ps[..|ps| - 1], k);
      RosterSetFacts(SeedAll(r, ps[..|ps| - 1]), ps[|ps| - 1].id, ps[|ps| - 1]);
    }
  }

  /** Seeding appends the fresh ids, in first-occurrence order, after the keys already present. */
  lemma {:induction false} SeedAllKeys<P>(r: Roster<P>, ps: seq<Player<P>>)
    ensures Keys(SeedAll(r, ps)) == Keys(r) + FreshIds(Keys(r), ps)
  {
    if ps != [] {
      var init := ps[..|ps| - 1];
      var last := ps[|ps| - 1];
      SeedAllKeys(r, init);
      var s := SeedAll(r, init);
      RosterSetFacts(s, last.id, last);
      HasKeyKeys(s, last.id);
      if HasKey(s, last.id) {
        assert Keys(RosterSet(s, last.id, last)) == Keys(s);
      } else {
        assert Keys(RosterSet(s, last.id, last)) == Keys(s) + [last.id];
      }
    }
  }

  lemma HasKeyKeys<P>(r: Roster<P>, k: string)
    ensures HasKey(r, k) <==> k in Keys(r)
  {
    if k in Keys(r) {
      var i :| 0 <= i < |r| && Keys(r)[i] == k;
      assert r[i].0 == k;
    }
  }

  /**
   * A join to a room at or over its `maxPlayers` is refused: only
   * `room_full`, carrying the room, goes to the joiner, and the table and the
   * subscriptions are as before.
   */
  lemma JoinFullRoom<M, P>(rooms: map<string, Room<P>>, subs: set<(string, string)>,
                           sid: string, room: string, player: Player<P>, config: Option<JoinConfig<P>>)
    requires room in rooms && |rooms[room].players| >= rooms[room].maxPlayers
    ensures var res := Join<M, P>(rooms, subs, sid, room, player, config);
      && res.rooms == rooms && res.subscriptions == subs
      && res.sent == [Emission(ToSelf(sid), RoomFull(rooms[room]))]
  {
  }

  /**
   * Admission and the owner search, on the roster: the joiner is stored
   * under the socket id (flagged owner when it is promoted, otherwise as
   * sent), every other key reads as before, and the roster grows by one
   * unless the socket id was already present.
   */
  lemma SettledRoster<P>(r: Room<P>, sid: string, player: Player<P>)
    ensures var s := Settled(r, sid, player).players;
      && RosterGet(s, sid) == Some(Joiner(r, sid, player))
      && (forall k :: k != sid ==> RosterGet(s, k) == RosterGet(r.players, k))
      && |s| == (if HasKey(r.players, sid) then |r.players| else |r.players| + 1)
      && (UniqueKeys(r.players) ==> UniqueKeys(s))
      && Settled(r, sid, player).room == r.room
      && Settled(r, sid, player).maxPlayers == r.maxPlayers
      && Settled(r, sid, player).game == r.game
  {
    var a := Admitted(r, sid, player);
    RosterSetFacts(r.players, sid, player);
    if FirstOwner(a.players).None? {
      RosterSetFacts(a.players, sid, player.(isOwner := true));
      assert HasKey(a.players, sid);
    }
  }

  /** The joiner as broadcast differs from the joiner as sent at most in the owner flag, which only a promotion sets. */
  lemma JoinerIsSent<P>(r: Room<P>, sid: string, player: Player<P>)
    ensures Joiner(r, sid, player).(isOwner := player.isOwner) == player
    ensures Joiner(r, sid, player).isOwner <==> player.isOwner || FirstOwner(Admitted(r, sid, player).players).None?
  {
  }

  /**
   * After the owner search the room has an owner, and `set_owner` announces
   * the first flagged entry of the final roster.
   */
  lemma SettledOwner<P>(r: Room<P>, sid: string, player: Player<P>)
    ensures FirstOwner(Settled(r, sid, player).players) == Some(Announced(r, sid, player))
    ensures Announced(r, sid, player).isOwner
  {
    var a := Admitted(r, sid, player);
    RosterSetFacts(r.players, sid, player);
    if FirstOwner(a.players).None? {
      var p := player.(isOwner := true);
      RosterSetFacts(a.players, sid, p);
      assert HasKey(a.players, sid);
      var s := RosterSet(a.players, sid, p);
      // The promoted joiner is the only flagged entry.
      forall i | 0 <= i < |s| && s[i].1.isOwner
        ensures s[i].1 == p
      {
      }
      FirstOwnerIs(s, p);
    }
  }

  /**
   * A join to an existing room with space replaces that room by the settled
   * one and leaves every other room; the socket joins the room. The joiner
   * receives `room_joined` (the room as admitted), `set_owner` (the announced
   * owner) and `room_joined` again (the final room), and the others receive
   * `player_join` with exactly the entry stored for the joiner.
   */
  lemma JoinExistingRoom<M, P>(rooms: map<string, Room<P>>, subs: set<(string, string)>,
                               sid: string, room: string, player: Player<P>, config: Option<JoinConfig<P>>)
    requires room in rooms && |rooms[room].players| < rooms[room].maxPlayers
    ensures var res := Join<M, P>(rooms, subs, sid, room, player, config);
      && res.rooms == rooms[room := Settled(rooms[room], sid, player)]
      && res.subscriptions == subs + {(sid, room)}
      && |res.sent| == 4
      && res.sent[0] == Emission(ToSelf(sid), RoomJoined(rooms[room].room, Admitted(rooms[room], sid, player)))
      && FirstOwner(res.rooms[room].players).Some?
      && res.sent[1] == Emission(ToSelf(sid), SetOwner(FirstOwner(res.rooms[room].players).value))
      && res.sent[2] == Emission(ToSelf(sid), RoomJoined(rooms[room].room, res.rooms[room]))
      && RosterGet(res.rooms[room].players, sid).Some?
      && res.sent[3] == Emission(ToOthersInRoom(sid, room), PlayerJoin(RosterGet(res.rooms[room].players, sid).value))
  {
    SettledRoster(rooms[room], sid, player);
    SettledOwner(rooms[room], sid, player);
  }

  /** When every flagged entry is `p` and some entry is flagged, the owner search finds `p`. */
  lemma FirstOwnerIs<P>(r: Roster<P>, p: Player<P>)
    requires exists i :: 0 <= i < |r| && r[i].1.isOwner
    requires forall i :: 0 <= i < |r| && r[i].1.isOwner ==> r[i].1 == p
    ensures FirstOwner(r) == Some(p)
  {
  }

  /**
   * With at most one owner in the room and a joiner that does not claim the
   * flag, an admitted join leaves exactly one owner.
   */
  lemma JoinKeepsSingleOwner<M, P>(rooms: map<string, Room<P>>, subs: set<(string, string)>,
                                   sid: string, room: string, player: Player<P>, config: Option<JoinConfig<P>>)
    requires room in rooms && |rooms[room].players| < rooms[room].maxPlayers
    requires OwnerCount(rooms[room].players) <= 1 && !player.isOwner
    ensures OwnerCount(Join<M, P>(rooms, subs, sid, room, player, config).rooms[room].players) == 1
  {
    var r := rooms[room];
    var a := Admitted(r, sid, player);
    OwnerCountSet(r.players, sid, player);
    OwnerCountZero(a.players);
    if FirstOwner(a.players).None? {
      RosterSetFacts(r.players, sid, player);
      OwnerCountSet(a.players, sid, player.(isOwner := true));
    }
  }

  /**
   * The server trusts the joiner's own flag: a second player that arrives
   * claiming `isOwner` is admitted as a second owner.
   */
  lemma JoinTrustsClaimedOwner()
    ensures var a: Player<int> := Player("a", None, true, "sa", None);
      var b: Player<int> := Player("b", None, true, "sb", None);
      var rooms := map["r" := Room("r", None, 2, [("sa", a)])];
      OwnerCount(Join<int, int>(rooms, {}, "sb", "r", b, None).rooms["r"].players) == 2
  {
    var a: Player<int> := Player("a", None, true, "sa", None);
    var b: Player<int> := Player("b", None, true, "sb", None);
    var r: Roster<int> := [("sa", a)];
    assert IndexOf(r, "sb") == 1;
    assert RosterSet(r, "sb", b) == [("sa", a), ("sb", b)];
    assert FirstOwner(RosterSet(r, "sb", b)) == Some(a);
    assert Settled(Room("r", None, 2, r), "sb", b).players == [("sa", a), ("sb", b)];
    assert OwnerCount<int>([("sb", b)]) == 1;
  }

  /**
   * Creation does not check `config.players` against `maxPlayers`: a room
   * for two can be created holding three.
   */
  lemma SeedingIgnoresCapacity()
    ensures var p: Player<int> := Player("p", None, false, "sp", None);
      var q: Player<int> := Player("q", None, false, "sq", None);
      var j: Player<int> := Player("j", None, false, "sj", None);
      var config := Some(JoinConfig(None, Some(2), Some([p, q])));
      !WithinCapacity(Join<int, int>(map[], {}, "sj", "r", j, config).rooms["r"])
  {
    var p: Player<int> := Player("p", None, false, "sp", None);
    var q: Player<int> := Player("q", None, false, "sq", None);
    var j: Player<int> := Player("j", None, false, "sj", None);
    var base: Roster<int> := [("sj", j.(isOwner := true))];
    assert IndexOf(base, "p") == 1;
    assert SeedAll(base, [p]) == base + [("p", p)] by {
      assert [p][..0] == [];
    }
    assert IndexOf(base + [("p", p)], "q") == 2;
    assert [p, q][..1] == [p];
  }

  /**
   * Three players try a room for two: the first creates it and is its
   * owner, the second is admitted after the first and the owner stays, the
   * third is refused with `room_full` and the roster keeps its two entries.
   */
  lemma TwoPlayerRoomScenario()
    ensures var a: Player<int> := Player("a", None, false, "sa", None);
      var b: Player<int> := Player("b", None, false, "sb", None);
      var c: Player<int> := Player("c", None, false, "sc", None);
      var s1 := Join<int, int>(map[], {}, "sa", "r1", a, Some(JoinConfig(None, Some(2), None)));
      var s2 := Join<int, int>(s1.rooms, s1.subscriptions, "sb", "r1", b, None);
      var s3 := Join<int, int>(s2.rooms, s2.subscriptions, "sc", "r1", c, None);
      && s1.sent[0] == Emission(ToSelf("sa"), SetOwner(a.(isOwner := true)))
      && s2.rooms["r1"].players == [("sa", a.(isOwner := true)), ("sb", b)]
      && s2.sent[1] == Emission(ToSelf("sb"), SetOwner(a.(isOwner := true)))
      && s3.rooms == s2.rooms
      && s3.sent == [Emission(ToSelf("sc"), RoomFull(s2.rooms["r1"]))]
  {
    var a: Player<int> := Player("a", None, false, "sa", None);
    var b: Player<int> := Player("b", None, false, "sb", None);
    var owner := a.(isOwner := true);
    var base: Roster<int> := [("sa", owner)];
    assert SeedAll(base, []) == base;
    assert IndexOf(base, "sb") == 1;
    assert RosterSet(base, "sb", b) == [("sa", owner), ("sb", b)];
    assert FirstOwner(RosterSet(base, "sb", b)) == Some(owner);
  }

  /**
   * A join keeps the table well formed, and it keeps every room that was
   * within its capacity within it: only a created room can start over it.
   */
  lemma JoinKeepsInvariants<M, P>(rooms: map<string, Room<P>>, subs: set<(string, string)>,
                                  sid: string, room: string, player: Player<P>, config: Option<JoinConfig<P>>)
    requires WellFormed(rooms)
    ensures WellFormed(Join<M, P>(rooms, subs, sid, room, player, config).rooms)
    ensures room in rooms && WithinCapacity(rooms[room]) ==> WithinCapacity(Join<M, P>(rooms, subs, sid, room, player, config).rooms[room])
  {
    var res := Join<M, P>(rooms, subs, sid, room, player, config);
    if room !in rooms {
      SeedAllFacts([(sid, player.(isOwner := true))], ConfigPlayers(config));
    } else if !IsFull(rooms[room]) {
      var a := Admitted(rooms[room], sid, player);
      RosterSetFacts(rooms[room].players, sid, player);
      RosterSetFacts(a.players, sid, player.(isOwner := true));
      assert HasKey(a.players, sid);
    }
  }

  // ---------------------------------------------------------------------
  // The registry.

  class GameRoomManager<M, P> {
    var rooms: map<string, Room<P>>
    /** The (socket id, room) pairs `socket.join` has made. */
    var subscriptions: set<(string, string)>
    var outbox: seq<Emission<M, P>>

    ghost predicate Valid()
      reads this
    {
      WellFormed(rooms)
    }

    /** A new registry: no rooms. The `connection` wiring is left to the socket layer. */
    constructor ()
      ensures Valid()
      ensures rooms == map[] && subscriptions == {} && outbox == []
    {
      rooms := map[];
      subscriptions := {};
      outbox := [];
    }

    /** `onPlayerMove`: relay the movement unchanged to the whole of its room, if the room exists. */
    method OnPlayerMove(movement: Movement<M, P>)
      modifies this
      ensures rooms == old(rooms) && subscriptions == old(subscriptions)
      ensures movement.room in rooms ==> outbox == old(outbox) + [Emission(ToAllInRoom(movement.room), PlayerMove(movement))]
      ensures movement.room !in rooms ==> outbox == old(outbox)
    {
      if movement.room in rooms {
        outbox := outbox + [Emission(ToAllInRoom(movement.room), PlayerMove(movement))];
      }
    }

    /** The `for` loop over `config.players`: set each under its own `id`. */
    static method Seed(players: Roster<P>, extra: seq<Player<P>>) returns (r: Roster<P>)
      ensures r == SeedAll(players, extra)
    {
      r := players;
      for k := 0 to |extra|
        invariant r == SeedAll(players, extra[..k])
      {
        assert extra[..k + 1][..k] == extra[..k];
        r := RosterSet(r, extra[k].id, extra[k]);
      }
      assert extra[..|extra|] == extra;
    }

    /** The creation branch of `roomJoin`: the joiner, flagged owner, then the seeded players; `set_owner` goes to the joiner. */
    method CreateRoom(sid: string, room: string, player: Player<P>, config: Option<JoinConfig<P>>) returns (joiner: Player<P>)
      requires room !in rooms
      modifies this
      ensures joiner == player.(isOwner := true)
      ensures rooms == old(rooms)[room := NewRoom(sid, room, player, config)]
      ensures subscriptions == old(subscriptions)
      ensures outbox == old(outbox) + [Emission(ToSelf(sid), SetOwner(joiner))]
    {
      joiner := player.(isOwner := true);
      var players := [(sid, joiner)];
      if config.Some? && config.value.players.Some? && |config.value.players.value| > 0 {
        players := Seed(players, config.value.players.value);
      }
      rooms := rooms[room := Room(room, ConfigGame(config), ConfigMax(config), players)];
      outbox := outbox + [Emission(ToSelf(sid), SetOwner(joiner))];
    }

    /**
     * The existing-room branch of `roomJoin` up to `set_owner`: refuse a
     * full room, otherwise store the joiner, announce the admitted room,
     * search for the owner and promote the joiner when there is none.
     */
    method AdmitToRoom(sid: string, room: string, player: Player<P>) returns (admitted: bool, joiner: Player<P>)
      requires room in rooms
      modifies this
      ensures admitted == !IsFull(old(rooms)[room])
      ensures subscriptions == old(subscriptions)
      ensures !admitted ==> rooms == old(rooms) && outbox == old(outbox) + [Emission(ToSelf(sid), RoomFull(old(rooms)[room]))]
      ensures admitted ==>
        var r := old(rooms)[room];
        && rooms == old(rooms)[room := Settled(r, sid, player)]
        && joiner == Joiner(r, sid, player)
        && outbox == old(outbox) + [Emission(ToSelf(sid), RoomJoined(r.room, Admitted(r, sid, player))), Emission(ToSelf(sid), SetOwner(Announced(r, sid, player)))]
    {
      joiner := player;
      var existing := rooms[room];
      if |existing.players| >= existing.maxPlayers {
        outbox := outbox + [Emission(ToSelf(sid), RoomFull(existing))];
        return false, joiner;
      }
      existing := existing.(players := RosterSet(existing.players, sid, joiner));
      rooms := rooms[room := existing];
      outbox := outbox + [Emission(ToSelf(sid), RoomJoined(existing.room, existing))];
      var owner := FirstOwner(existing.players);
      if owner.None? {
        joiner := joiner.(isOwner := true);
        owner := Some(joiner);
        existing := existing.(players := RosterSet(existing.players, sid, joiner));
        rooms := rooms[room := existing];
      }
      outbox := outbox + [Emission(ToSelf(sid), SetOwner(owner.value))];
      return true, joiner;
    }

    /** The common tail of an admitted `roomJoin`: subscribe the socket, `room_joined` to it, `player_join` to the others. */
    method AnnounceJoin(sid: string, room: string, joiner: Player<P>)
      requires room in rooms
      modifies this
      ensures rooms == old(rooms) && subscriptions == old(subscriptions) + {(sid, room)}
      ensures outbox == old(outbox) + [Emission(ToSelf(sid), RoomJoined(rooms[room].room, rooms[room])), Emission(ToOthersInRoom(sid, room), PlayerJoin(joiner))]
    {
      var joined := rooms[room];
      subscriptions := subscriptions + {(sid, room)};
      outbox := outbox + [Emission(ToSelf(sid), RoomJoined(joined.room, joined)), Emission(ToOthersInRoom(sid, room), PlayerJoin(joiner))];
    }

    /** `roomJoin(socket, room, player, config)` for the socket with id `sid`. */
    method RoomJoin(sid: string, room: string, player: Player<P>, config: Option<JoinConfig<P>>)
      requires Valid()
      modifies this
      ensures Valid()
      ensures var res := Join<M, P>(old(rooms), old(subscriptions), sid, room, player, config);
        rooms == res.rooms && subscriptions == res.subscriptions && outbox == old(outbox) + res.sent
    {
      JoinKeepsInvariants<M, P>(rooms, subscriptions, sid, room, player, config);
      var joiner: Player<P>;
      if room !in rooms {
        joiner := CreateRoom(sid, room, player, config);
      } else {
        var admitted;
        admitted, joiner := AdmitToRoom(sid, room, player);
        if !admitted {
          return;
        }
      }
      AnnounceJoin(sid, room, joiner);
    }
  }
}
