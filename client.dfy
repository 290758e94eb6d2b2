/** The browser client (src/main.ts): its cache of remote entities, driven by
    the relay's `init` / `spawn` / `update` / `despawn` events, and the
    `input` / `shoot` messages it sends. A remote entity is kept as its id,
    position and yaw; the scene object, the physics body and the model are
    not modelled. The pure functions below say what one event does to the
    client's view; the class `Game` holds the module variables and its
    handlers are proved to follow those functions. */
module Client {
  import opened Wire

  /** A remote entity: id, position and yaw. */
  datatype Remote = Remote(id: Id, x: real, y: real, z: real, rotY: real)

  /** `remotePlayers`: remote entities by id. */
  type Cache = map<Id, Remote>

  /** The entity `spawnRemotePlayer(p)` creates: placed at `p`'s position,
      with the yaw of a fresh scene group (zero); `p`'s yaw is not read. */
  function NewRemote(p: PlayerState): Remote {
    Remote(p.id, p.x, p.y, p.z, 0.0)
  }

  /** `spawnRemotePlayer(p)`: a no-op when the id is already cached. */
  function SpawnRemote(cache: Cache, p: PlayerState): Cache {
    if p.id in cache then cache else cache[p.id := NewRemote(p)]
  }

  /** The `init` loop: `spawnRemotePlayer` for each listed player whose id
      is not `self`, in list order. */
  function SpawnOthers(cache: Cache, ps: seq<PlayerState>, self: Id): Cache
    decreases |ps|
  {
    if ps == [] then cache
    else
      var prev := SpawnOthers(cache, ps[..|ps| - 1], self);
      var p := ps[|ps| - 1];
      if p.id != self then SpawnRemote(prev, p) else prev
  }

  /** The `update` case: set the cached entity's position and yaw. */
  function Move(cache: Cache, p: PlayerState): Cache {
    if p.id in cache then cache[p.id := cache[p.id].(x := p.x, y := p.y, z := p.z, rotY := p.rotY)]
    else cache
  }

  /** The `despawn` case. */
  function Drop(cache: Cache, id: Id): Cache {
    if id in cache then cache - {id} else cache
  }

  /** `me?.id ?? crypto.randomUUID()`: `yourId` when some listed player has
      it, otherwise the fresh id `freshId`. */
  function OwnId(players: seq<PlayerState>, yourId: Id, freshId: Id): Id {
    if exists i | 0 <= i < |players| :: players[i].id == yourId then yourId else freshId
  }

  /** What the reconciliation logic reads and writes: `playerId` and the cache. */
  datatype View = View(playerId: Option<Id>, cache: Cache)

  /** One inbound message. `freshId` is the random id `init` falls back to;
      other messages ignore it. The switch has no `playerFired` case. */
  function Receive(v: View, msg: ServerMessage, freshId: Id): View {
    match msg
    case Init(players, yourId) =>
      var self := OwnId(players, yourId, freshId);
      View(Some(self), SpawnOthers(v.cache, players, self))
    case Spawn(p) => if v.playerId != Some(p.id) then v.(cache := SpawnRemote(v.cache, p)) else v
    case Update(p) => v.(cache := Move(v.cache, p))
    case Despawn(id) => v.(cache := Drop(v.cache, id))
    case PlayerFired(_, _, _) => v
  }

  /** Every entity is stored under its own id. */
  ghost predicate Keyed(cache: Cache) {
    forall k | k in cache :: cache[k].id == k
  }

  /** The client holds no entity for itself. */
  ghost predicate NoSelf(v: View) {
    v.playerId.Some? ==> v.playerId.value !in v.cache
  }

  /** The first listed player with id `ps[i].id` is at index `i`. */
  ghost predicate FirstWithId(ps: seq<PlayerState>, i: int)
    requires 0 <= i < |ps|
  {
    forall j | 0 <= j < i :: ps[j].id != ps[i].id
  }

  lemma SpawnRemoteIdempotent(cache: Cache, p: PlayerState)
    ensures p.id in SpawnRemote(cache, p)
    ensures SpawnRemote(SpawnRemote(cache, p), p) == SpawnRemote(cache, p)
    ensures p.id in cache ==> SpawnRemote(cache, p) == cache
    ensures p.id !in cache ==> SpawnRemote(cache, p)[p.id] == Remote(p.id, p.x, p.y, p.z, 0.0)
    ensures forall k | k in cache :: k in SpawnRemote(cache, p) && SpawnRemote(cache, p)[k] == cache[k]
    ensures SpawnRemote(cache, p).Keys == cache.Keys + {p.id}
  {
  }

  /** The `init` loop keeps every cached entity, adds one for each listed
      player other than `self`, adds nothing else, and builds each new entity
      from the first listed player with that id. */
  lemma {:induction false} SpawnOthersSpec(cache: Cache, ps: seq<PlayerState>, self: Id)
    ensures var r := SpawnOthers(cache, ps, self);
      && (forall k | k in cache :: k in r && r[k] == cache[k])
      && (forall i | 0 <= i < |ps| && ps[i].id != self :: ps[i].id in r)
      && (forall k | k in r && k !in cache ::
            k != self && exists i | 0 <= i < |ps| :: ps[i].id == k && FirstWithId(ps, i) && r[k] == NewRemote(ps[i]))
    decreases |ps|
  {
    if ps != [] {
      var front, p := ps[..|ps| - 1], ps[|ps| - 1];
      SpawnOthersSpec(cache, front, self);
      var prev, r := SpawnOthers(cache, front, self), SpawnOthers(cache, ps, self);
      forall i | 0 <= i < |ps| && ps[i].id != self ensures ps[i].id in r {
        if i < |front| { assert front[i] == ps[i]; }
      }
      forall k | k in r && k !in cache
        ensures k != self && exists i | 0 <= i < |ps| :: ps[i].id == k && FirstWithId(ps, i) && r[k] == NewRemote(ps[i])
      {
        if k in prev {
          var i :| 0 <= i < |front| && front[i].id == k && FirstWithId(front, i) && prev[k] == NewRemote(front[i]);
          assert ps[i] == front[i];
          assert FirstWithId(ps, i) by {
            forall j | 0 <= j < i ensures ps[j].id != ps[i].id { assert ps[j] == front[j]; }
          }
        } else {
          assert k == p.id && p.id != self;
          var i := |ps| - 1;
          assert FirstWithId(ps, i) by {
            forall j | 0 <= j < i ensures ps[j].id != ps[i].id {
              assert ps[j] == front[j];
            }
          }
        }
      }
    }
  }

  /** No event ever creates an entity for the client's own id. */
  lemma NeverSpawnsSelf(v: View, msg: ServerMessage, freshId: Id, k: Id)
    requires k in Receive(v, msg, freshId).cache && k !in v.cache
    ensures Receive(v, msg, freshId).playerId != Some(k)
  {
    if msg.Init? {
      SpawnOthersSpec(v.cache, msg.players, OwnId(msg.players, msg.yourId, freshId));
    }
  }

  /** Every event keeps the cache keyed by entity id and free of the
      client's own entity; `init` needs the id it adopts not to be cached
      already, which holds for a client that has seen no event before. */
  lemma ReceiveKeepsInvariant(v: View, msg: ServerMessage, freshId: Id)
    requires Keyed(v.cache) && NoSelf(v)
    requires msg.Init? ==> OwnId(msg.players, msg.yourId, freshId) !in v.cache
    ensures Keyed(Receive(v, msg, freshId).cache) && NoSelf(Receive(v, msg, freshId))
  {
    if msg.Init? {
      var self := OwnId(msg.players, msg.yourId, freshId);
      var r := SpawnOthers(v.cache, msg.players, self);
      SpawnOthersSpec(v.cache, msg.players, self);
      forall k | k in r ensures r[k].id == k {
        if k !in v.cache {
          var i :| 0 <= i < |msg.players| && msg.players[i].id == k && FirstWithId(msg.players, i) && r[k] == NewRemote(msg.players[i]);
        }
      }
    }
  }

  /** `init` adopts `yourId` exactly when the list holds it, and caches an
      entity for every listed player but itself. */
  lemma InitAdoptsId(v: View, players: seq<PlayerState>, yourId: Id, freshId: Id)
    ensures var w := Receive(v, Init(players, yourId), freshId);
      && w.playerId == Some(OwnId(players, yourId, freshId))
      && ((exists i | 0 <= i < |players| :: players[i].id == yourId) ==> w.playerId == Some(yourId))
      && ((forall i | 0 <= i < |players| :: players[i].id != yourId) ==> w.playerId == Some(freshId))
      && (forall i | 0 <= i < |players| && Some(players[i].id) != w.playerId :: players[i].id in w.cache)
  {
    SpawnOthersSpec(v.cache, players, OwnId(players, yourId, freshId));
  }

  /** `spawn` of the client's own id, or of an id already cached, changes nothing. */
  lemma SpawnIgnoresSelfAndKnown(v: View, p: PlayerState, freshId: Id)
    requires v.playerId == Some(p.id) || p.id in v.cache
    ensures Receive(v, Spawn(p), freshId) == v
  {
  }

  /** `update` moves only the entity it names, and only when it is cached;
      the pitch is not read. */
  lemma UpdateMovesOne(v: View, p: PlayerState, freshId: Id)
    ensures var w := Receive(v, Update(p), freshId);
      && w.playerId == v.playerId
      && w.cache.Keys == v.cache.Keys
      && (p.id in v.cache ==> w.cache[p.id] == Remote(v.cache[p.id].id, p.x, p.y, p.z, p.rotY))
      && (forall k | k in v.cache && k != p.id :: w.cache[k] == v.cache[k])
      && Receive(v, Update(p.(rotX := 0.0)), freshId) == w
  {
  }

  /** `despawn` removes exactly the id it names, or nothing. */
  lemma DespawnRemovesOne(v: View, id: Id, freshId: Id)
    ensures var w := Receive(v, Despawn(id), freshId);
      && w.playerId == v.playerId
      && w.cache.Keys == v.cache.Keys - {id}
      && (forall k | k in w.cache :: w.cache[k] == v.cache[k])
      && (id !in v.cache ==> w == v)
  {
  }

  /** The event sequence init{[], A}, spawn B at (1,2,3), update B to
      (5,2,3), despawn B, from a fresh client. */
  lemma Reconciliation(freshId: Id)
    requires freshId != "B"
    ensures var b1 := PlayerState("B", 1.0, 2.0, 3.0, 0.0, 0.0, 1.0, 1.0, 1.0);
      var b2 := b1.(x := 5.0);
      var v0 := View(None, map[]);
      var v1 := Receive(v0, Init([], "A"), freshId);
      var v2 := Receive(v1, Spawn(b1), freshId);
      var v3 := Receive(v2, Update(b2), freshId);
      var v4 := Receive(v3, Despawn("B"), freshId);
      && v1.cache == map[]
      && v2.cache == map["B" := Remote("B", 1.0, 2.0, 3.0, 0.0)]
      && v3.cache == map["B" := Remote("B", 5.0, 2.0, 3.0, 0.0)]
      && v4.cache == map[]
  {
  }

  class Game {
    /** `playerId`: unset until `init`. */
    var playerId: Option<Id>
    /** Whether `player` (the local player) exists. */
    var hasPlayer: bool
    var remotePlayers: Cache
    /** `socket.readyState`. */
    var socket: ReadyState
    /** Every message sent on the socket, in order. */
    var outgoing: seq<ClientMessage>

    ghost function State(): View
      reads this
    {
      View(playerId, remotePlayers)
    }

    constructor ()
      ensures playerId == None && !hasPlayer && remotePlayers == map[]
      ensures socket == Connecting && outgoing == []
    {
      playerId, hasPlayer, remotePlayers := None, false, map[];
      socket, outgoing := Connecting, [];
    }

    /** The transport changes the socket's state (the `open` event, a close). */
    method SetSocketState(s: ReadyState)
      modifies this`socket
      ensures socket == s
    {
      socket := s;
    }

    method SpawnRemotePlayer(p: PlayerState)
      modifies this`remotePlayers
      ensures remotePlayers == SpawnRemote(old(remotePlayers), p)
    {
      if p.id in remotePlayers {
        return;
      }
      remotePlayers := remotePlayers[p.id := NewRemote(p)];
    }

    /** `sendPlayerUpdate`, with `pose` the local player's position, yaw and
        the camera's pitch: one `input` message, only when a local player
        exists and the socket is OPEN. */
    method SendPlayerUpdate(pose: Pose)
      modifies this`outgoing
      ensures outgoing == old(outgoing) +
        (if hasPlayer && socket == Open then [Input(pose.x, pose.y, pose.z, pose.rotY, pose.rotX)] else [])
    {
      if hasPlayer && socket == Open {
        outgoing := outgoing + [Input(pose.x, pose.y, pose.z, pose.rotY, pose.rotX)];
      }
    }

    /** The `mousedown` handler; `hitId` is the name of whatever the local
        hit test struck. A `shoot` goes out for a left click, with a local
        player, on an OPEN socket. */
    method OnMouseDown(button: int, origin: Vec3, direction: Vec3, hitId: Option<Id>)
      modifies this`outgoing
      ensures outgoing == old(outgoing) +
        (if button == 0 && hasPlayer && socket == Open then [Shoot(origin, direction, hitId)] else [])
    {
      if button == 0 && hasPlayer {
        if socket == Open {
          outgoing := outgoing + [Shoot(origin, direction, hitId)];
        }
      }
    }

    /** The socket's `message` handler. `freshId` is what
        `crypto.randomUUID()` would return; `pose` is what `sendPlayerUpdate`
        samples after `init`. */
    method OnMessage(msg: ServerMessage, freshId: Id, pose: Pose)
      modifies this`playerId, this`hasPlayer, this`remotePlayers, this`outgoing
      ensures State() == Receive(old(State()), msg, freshId)
      ensures hasPlayer == (old(hasPlayer) || msg.Init?)
      ensures outgoing == old(outgoing) +
        (if msg.Init? && socket == Open then [Input(pose.x, pose.y, pose.z, pose.rotY, pose.rotX)] else [])
    {
      match msg
      case Init(players, yourId) =>
        var self := OwnId(players, yourId, freshId);
        playerId := Some(self);
        hasPlayer := true;
        var i := 0;
        while i < |players|
          invariant 0 <= i <= |players|
          invariant remotePlayers == SpawnOthers(old(remotePlayers), players[..i], self)
          modifies this`remotePlayers
        {
          assert players[..i + 1][..i] == players[..i];
          if players[i].id != self {
            SpawnRemotePlayer(players[i]);
          }
          i := i + 1;
        }
        assert players[..i] == players;
        SendPlayerUpdate(pose);
      case Spawn(p) =>
        if playerId != Some(p.id) {
          SpawnRemotePlayer(p);
        }
      case Update(p) =>
        if p.id in remotePlayers {
          remotePlayers := remotePlayers[p.id := remotePlayers[p.id].(x := p.x, y := p.y, z := p.z, rotY := p.rotY)];
        }
      case Despawn(id) =>
        if id in remotePlayers {
          remotePlayers := remotePlayers - {id};
        }
      case PlayerFired(_, _, _) =>
    }
  }
}
