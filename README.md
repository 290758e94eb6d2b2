# Multiplayer state synchronisation of the `bang` shooter prototype

This project models, in Dafny, the part of the prototype that keeps many
browsers in step:

- the **relay** (`server.ts`). It keeps a process-wide registry `players`
  from id to player record. Its per-socket `connection`, `message` and
  `close` handlers update that registry. Its `broadcast` helper sends one
  copy of an event to every OPEN client except an optional excluded socket;
- the **client's remote-entity cache** (`src/main.ts`). The socket's
  `message` handler turns `init` / `spawn` / `update` / `despawn` events into
  entries of `remotePlayers`. `spawnRemotePlayer` creates entries.
  `sendPlayerUpdate` and the `mousedown` handler send `input` and `shoot`;
- the countdown timer **`Chronos`** (`src/core/Chronos.ts`).

Files:

- `wire.dfy` (module `Wire`): player records and one datatype variant per
  message `type`. `Unknown` stands for any other client message type.
- `relay.dfy` (module `Relay`): class `Relay`. Its fields are `players`
  (the registry), `sessions`, `clients` and `outbox`. `sessions` is every
  accepted socket with the id its handlers captured. `clients` is
  `wss.clients` with each socket's `readyState`. `outbox` is every `send`
  made, in order. `Valid()` says three things. Each entry is stored under
  its own id. Ids are never reused. The registry's keys are exactly the ids
  of the sockets still in the client set. Every handler preserves `Valid()`
  and states its whole new state and the messages it appended.
- `client.dfy` (module `Client`): pure functions that say what one inbound
  event does to `(playerId, remotePlayers)` (`Receive`), lemmas about them,
  and class `Game`. `Game` holds the module variables of `src/main.ts`.
  Its handlers are proved to follow `Receive`.
- `countdown.dfy` (module `Countdown`): class `Chronos`, and the pure
  functions `Advance` / `Fired` that specify one `update()`. There are also
  lemmas over runs of updates, such as "the end callback fires at most
  once".

Environment inputs become parameters:

- the value of `crypto.randomUUID()` is a fresh id argument, on the relay
  and for the client's fallback id;
- the `performance.now()` reading is a `now: real` argument of `Chronos`;
- the local pose and the local hit test's result are arguments of the
  client's send operations;
- changes of a socket's `readyState` by the transport are the methods
  `Relay.Relay.SetReadyState` and `Client.Game.SetSocketState`.

Where the code differs from the documented design, the model follows the code:

- `update` is broadcast to every OPEN client, including the sender. The
  comment at server.ts:107 says "other clients", but `broadcast` is called
  without an exclusion. The model reproduces the self-echo. It is harmless
  because the sender never caches an entity for its own id (`Client.NeverSpawnsSelf`).
- The client's switch has no `playerFired` case, so `Receive` ignores that
  message.
- A `shoot` that arrives on a socket after its close handler has run still
  broadcasts `playerFired` under the old id. A late `input` is dropped by
  the `if (!player) return` guard. `OnMessage` therefore accepts any socket
  ever accepted, not only live ones.
- The ws library removes a socket from `wss.clients` in its own `close`
  listener, registered before the application's. So `despawn` never reaches
  the closing socket.
- `spawnRemotePlayer` places the new entity at the player's position and
  does not read its yaw. A new entity therefore has yaw 0, the scene
  group's default.
- The `mousedown` handler sends `shoot` only for button 0, only when a
  local player exists, and only when the socket is OPEN.
- The relay registers the new player twice with the same record
  (server.ts:40 and server.ts:54). The model writes it once.
- The relay's `crypto.randomUUID()` is modelled by `requires id !in
  sessions.Values`: an id never issued before. The code does not check for
  a collision, so a rejection of a duplicate id has no counterpart here.

## Model

| member | source | states |
|---|---|---|
| `Relay.ValuesOf` | server.ts:71 | the `init` snapshot lists every registry entry exactly once and nothing else (`Lists`) |
| `Relay.EnumeratesSize` | server.ts:120-126 | a broadcast's recipient order has one entry per recipient, so each recipient gets exactly one copy |
| `Relay.RecipientsExclusion` | server.ts:123-124 | excluding a socket removes exactly that socket from the recipients; without exclusion an OPEN sender is a recipient |
| `Relay.DeliveriesAt` | server.ts:121-124 | the i-th copy a broadcast sends goes to its i-th recipient, one copy per recipient |
| `Relay.Relay.constructor` | server.ts:36 | the registry, the client set and the outbox start empty |
| `Relay.Relay.Broadcast` | server.ts:120-126 | one copy of the message goes to each OPEN client other than the excluded one, and to no one else; nothing else changes |
| `Relay.Relay.OnConnection` | server.ts:38-77 | the new key was not in the registry and is registered with the default pose x=0,y=2,z=0, rotY=rotX=0, scale 1,1,1; `init` goes only to the new socket, with `yourId` equal to the new id and the full registry including the new player; then `spawn` of the new player goes to every other OPEN client and never to the new one; the invariant is kept |
| `Relay.Relay.OnMessage` | server.ts:79-110 | `shoot` leaves the registry unchanged and sends `playerFired{sender id, origin, direction}` to every OPEN client but the sender; `input` overwrites only x,y,z,rotY,rotX of the sender's entry and broadcasts `update` to every OPEN client including the sender; `input` for an id no longer registered, and any unknown type, change nothing and send nothing |
| `Relay.Relay.OnShoot` | server.ts:82-93 | `playerFired{sender id, origin, direction}`, with origin and direction passed through, goes to every OPEN client except the sender; the registry is not touched |
| `Relay.Relay.OnInput` | server.ts:95-109 | for a registered sender, only x,y,z,rotY,rotX of its own entry change (id and scale kept, other entries unchanged) and the updated record goes to every OPEN client including the sender; for an unregistered sender nothing changes and nothing is sent |
| `Relay.ShootFanOut` | server.ts:82-93 | with three OPEN sockets A, B, C, a shot from A reaches exactly B and C, once each, and not A |
| `Relay.Relay.OnClose` | server.ts:112-116 | removes the socket from the client set and exactly the sender's key from the registry; other keys are untouched; a repeated close changes no entry; `despawn{id}` goes to every remaining OPEN client; the invariant is kept |
| `Client.SpawnRemoteIdempotent` | src/main.ts:121-145 | spawning an id already cached changes nothing; otherwise the new entity sits at (p.x, p.y, p.z); spawning twice equals spawning once; existing entries are kept |
| `Client.SpawnOthersSpec` | src/main.ts:90-92 | the `init` loop keeps every cached entry, caches every listed player whose id is not the client's own, adds nothing else and never its own id, and builds each new entity from the first listed player with that id |
| `Client.InitAdoptsId` | src/main.ts:83-92 | after `init`, `playerId` is `yourId` when some listed player has it and the fresh random id otherwise; every other listed player is cached |
| `Client.NeverSpawnsSelf` | src/main.ts:78-119 | no inbound event creates an entity whose id is the client's (new) own id |
| `Client.ReceiveKeepsInvariant` | src/main.ts:78-119 | every event keeps the cache keyed by entity id and free of the client's own entity, given that the id `init` adopts is not already cached |
| `Client.SpawnIgnoresSelfAndKnown` | src/main.ts:97-99 | `spawn` of the client's own id, or of an id already cached, changes nothing |
| `Client.UpdateMovesOne` | src/main.ts:101-109 | `update` for a cached id sets its position and yaw and ignores rotX; an uncached id changes nothing; no other entry and no key changes |
| `Client.DespawnRemovesOne` | src/main.ts:111-117 | `despawn` removes the named id if present and is a no-op otherwise; other entries are unchanged |
| `Client.Reconciliation` | src/main.ts:78-119 | from a fresh client, init{[], A}, spawn B at (1,2,3), update B to (5,2,3) and despawn B leave the cache empty, B at (1,2,3), B at (5,2,3), and empty |
| `Client.Game.constructor` | src/main.ts:45-46 | no local player, no own id, an empty cache and nothing sent |
| `Client.Game.SpawnRemotePlayer` | src/main.ts:121-145 | the cache becomes `SpawnRemote` of the old cache |
| `Client.Game.SendPlayerUpdate` | src/main.ts:148-166 | one `input{x,y,z,rotY,rotX}` of the sampled pose is sent exactly when a local player exists and the socket is OPEN, otherwise nothing |
| `Client.Game.OnMouseDown` | src/main.ts:51-71 | one `shoot{origin, direction, hitId}` is sent exactly for a left click with a local player on an OPEN socket, otherwise nothing |
| `Client.Game.OnMessage` | src/main.ts:78-119 | `(playerId, remotePlayers)` becomes `Receive` of the old values; `init` creates the local player and then sends one `input` when the socket is OPEN; no other event sends anything |
| `Countdown.AdvanceCountsDown` | src/core/Chronos.ts:43-58 | a running update subtracts the elapsed seconds; it stops exactly when the result is at or below zero, then with time left 0; the time left is never negative afterwards; the duration is kept |
| `Countdown.StoppedUpdateIsNoOp` | src/core/Chronos.ts:44 | an update of a stopped timer changes no state and invokes no callback |
| `Countdown.RunningUpdateCallbacks` | src/core/Chronos.ts:50-57 | a running update invokes the end callback exactly when it stops the timer, and then the tick callback with the new time left, including the final 0 |
| `Countdown.StoppedStaysStopped` | src/core/Chronos.ts:44 | any number of updates of a stopped timer change nothing and invoke nothing |
| `Countdown.EndFiresOnce` | src/core/Chronos.ts:51-55 | over any run of updates the end callback fires once if the run stopped a running timer and it is registered, and never otherwise |
| `Countdown.Chronos.constructor` | src/core/Chronos.ts:2-9 | duration and time left 0, stopped, no callbacks |
| `Countdown.Chronos.Start` | src/core/Chronos.ts:11-16 | duration = time left = d, running, clock reading recorded |
| `Countdown.Chronos.Pause` | src/core/Chronos.ts:18-20 | stops the timer and changes nothing else |
| `Countdown.Chronos.Resume` | src/core/Chronos.ts:22-27 | a running timer is unchanged; a paused one runs again from the current clock reading |
| `Countdown.Chronos.Reset` | src/core/Chronos.ts:29-32 | time left back to the duration, stopped |
| `Countdown.Chronos.OnTick` | src/core/Chronos.ts:34-36 | a tick callback is registered |
| `Countdown.Chronos.OnEnd` | src/core/Chronos.ts:38-40 | an end callback is registered |
| `Countdown.Chronos.Update` | src/core/Chronos.ts:43-58 | the state becomes `Advance` of the old state, and the callbacks invoked are `Fired` of it |
| `Countdown.Chronos.GetTime` | src/core/Chronos.ts:60-62 | returns the time left |

## Left out

- JSON encoding and decoding: messages are datatype values. A payload that
  fails `JSON.parse` or lacks fields is not modelled.
- The express static server, the WebSocket server setup and `console.log`
  (server.ts:1-22). The client's socket creation and `open` handler are
  reduced to `SetSocketState`.
- `crypto.randomUUID()` and `performance.now()` are arguments, not
  generators.
- Floating point: coordinates, angles and times are reals. The timer's
  division by 1000 is exact.
- Concurrency: each WebSocket event is one atomic method call, as on Node's
  event loop.
- Rendering, physics and assets: the three.js objects, the scene removal
  in `despawn`, the `LocalPlayer` / `RemotePlayer` construction and the
  local hit test `player.shoot` are left out. The hit test's result is the
  `hitId` argument.
- The `animate` loop and the controls are left out. They only call
  `sendPlayerUpdate` and `timer.update()` once per frame.
- What the timer's callbacks do: a registered callback is recorded as a
  `Call`, and its body is not modelled.
- The relay ignores a shot's `hitId`. The model carries it in `Shoot` and
  never reads it, as the relay does.
