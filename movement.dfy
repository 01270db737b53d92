/**
 * The movement record of the browser client
 * (web/src/libs/multiplayer/Movement.ts): who moved, the game-specific move
 * of type `M`, the room, an id and a timestamp. The constructor draws
 * `uuid()` and `Date.now()` for absent fields; those draws are the
 * parameters `freshId` and `now` here.
 */
module MovementRecord {
  import opened Wrappers
  import opened PlayerRecord

  /** `MovementData`: the constructor's argument, with optional id and timestamp. */
  datatype MovementData<M, P> = MovementData(
    id: Option<string>, player: Player<P>, movement: M, timestamp: Option<int>, room: string)

  /** A `Movement` instance; `stamp` is the private `#timestamp` field. */
  datatype Movement<M, P> = Movement(id: string, player: Player<P>, movement: M, stamp: int, room: string)
  {
    /** The read-only `timestamp` getter. */
    function Timestamp(): (t: int)
      ensures t == stamp
    {
      stamp
    }
  }

  /** `new Movement(data)`: given fields are kept; an absent id is `freshId`, an absent timestamp is `now`. */
  function MakeMovement<M, P>(data: MovementData<M, P>, freshId: string, now: int): (m: Movement<M, P>)
    ensures m.player == data.player && m.movement == data.movement && m.room == data.room
    ensures m.id == (if data.id.Some? then data.id.value else freshId)
    ensures m.Timestamp() == (if data.timestamp.Some? then data.timestamp.value else now)
  {
    Movement(data.id.GetOr(freshId), data.player, data.movement, data.timestamp.GetOr(now), data.room)
  }

  /** `toJson()`: every field, the timestamp read through its getter, so both optional fields are present. */
  function MovementJson<M, P>(m: Movement<M, P>): (d: MovementData<M, P>)
    ensures d.id == Some(m.id) && d.timestamp == Some(m.Timestamp())
    ensures d.player == m.player && d.movement == m.movement && d.room == m.room
  {
    MovementData(Some(m.id), m.player, m.movement, Some(m.Timestamp()), m.room)
  }

  /** Serialising and rebuilding a movement gives it back: no fresh id or clock reading is used. */
  lemma MovementRoundTrip<M, P>(m: Movement<M, P>, freshId: string, now: int)
    ensures MakeMovement(MovementJson(m), freshId, now) == m
  {
  }

  /** Two movements built from the same data with no id differ exactly when the drawn ids differ. */
  lemma MovementIdentity<M, P>(data: MovementData<M, P>, id1: string, id2: string, now: int)
    requires data.id.None?
    ensures MakeMovement(data, id1, now) == MakeMovement(data, id2, now) <==> id1 == id2
  {
  }
}
