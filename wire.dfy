/** The wire protocol shared by the relay and the browser client: player
    records and one variant per message `type`. JSON encoding is not modelled;
    a message is its decoded value. Coordinates and angles are reals, copied
    as they are. */
module Wire {

  datatype Option<+T> = None | Some(value: T)

  /** A player id (a UUID string on the relay). */
  type Id = string

  datatype Vec3 = Vec3(x: real, y: real, z: real)

  /** The relay's `PlayerState` record. */
  datatype PlayerState = PlayerState(
    id: Id,
    x: real, y: real, z: real,
    rotY: real,   // yaw
    rotX: real,   // pitch
    scaleX: real, scaleY: real, scaleZ: real)

  /** Messages a client sends to the relay. `Unknown` stands for any other
      `type` value, which both relay branches ignore. */
  datatype ClientMessage =
    | Input(x: real, y: real, z: real, rotY: real, rotX: real)
    | Shoot(origin: Vec3, direction: Vec3, hitId: Option<Id>)
    | Unknown

  /** Messages the relay sends to a client. */
  datatype ServerMessage =
    | Init(players: seq<PlayerState>, yourId: Id)
    | Spawn(player: PlayerState)
    | Update(player: PlayerState)
    | Despawn(id: Id)
    | PlayerFired(id: Id, origin: Vec3, direction: Vec3)

  /** The `readyState` of a WebSocket. */
  datatype ReadyState = Connecting | Open | Closing | Closed

  /** The local player's pose as the client samples it each frame. */
  datatype Pose = Pose(x: real, y: real, z: real, rotY: real, rotX: real)
}
