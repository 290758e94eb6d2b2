/** The relay (server.ts): the process-wide `players` registry, the
    per-connection `connection` / `message` / `close` handlers and the
    `broadcast` fan-out. Each WebSocket event runs to completion on Node's
    event loop, so each handler is one method call. Sockets are handles;
    `ws.send` is a `Delivery` appended to the outbox. */
module Relay {
  import opened Wire

  /** A socket handle; equality is socket identity (`c === exclude`). */
  type Conn = nat

  /** One `send` of one message to one socket. */
  datatype Delivery = Delivery(to: Conn, msg: ServerMessage)

  /** The record every new connection is registered with. */
  function Joined(id: Id): PlayerState {
    PlayerState(id, 0.0, 2.0, 0.0, 0.0, 0.0, 1.0, 1.0, 1.0)
  }

  /** The sockets `broadcast(data, exclude)` sends to: every client except
      the excluded one whose `readyState` is OPEN. */
  function Recipients(clients: map<Conn, ReadyState>, exclude: Option<Conn>): set<Conn> {
    set c | c in clients && exclude != Some(c) && clients[c] == Open
  }

  /** The ids of the sockets still in the client set. */
  ghost function Live(clients: map<Conn, ReadyState>, sessions: map<Conn, Id>): set<Id>
    requires clients.Keys <= sessions.Keys
  {
    set c | c in clients :: sessions[c]
  }

  lemma LiveAdd(clients: map<Conn, ReadyState>, sessions: map<Conn, Id>, c: Conn, s: ReadyState, id: Id)
    requires clients.Keys <= sessions.Keys && c !in sessions
    ensures Live(clients[c := s], sessions[c := id]) == Live(clients, sessions) + {id}
  {
    var before, after := Live(clients, sessions), Live(clients[c := s], sessions[c := id]);
    forall k | k in after ensures k in before + {id} {
      var d :| d in clients[c := s] && sessions[c := id][d] == k;
      if d != c { assert d in clients && sessions[d] == k; }
    }
    forall k | k in before + {id} ensures k in after {
      if k == id {
        assert c in clients[c := s] && sessions[c := id][c] == k;
      } else {
        var d :| d in clients && sessions[d] == k;
        assert d in clients[c := s] && sessions[c := id][d] == k;
      }
    }
  }

  /** Removing a socket removes exactly its id when ids are not shared. */
  lemma LiveRemove(clients: map<Conn, ReadyState>, sessions: map<Conn, Id>, c: Conn)
    requires clients.Keys <= sessions.Keys && c in sessions
    requires forall a, b | a in sessions && b in sessions && a != b :: sessions[a] != sessions[b]
    ensures Live(clients - {c}, sessions) == Live(clients, sessions) - {sessions[c]}
  {
    var before, after := Live(clients, sessions), Live(clients - {c}, sessions);
    forall k | k in after ensures k in before - {sessions[c]} {
      var d :| d in clients - {c} && sessions[d] == k;
      assert d in clients;
    }
    forall k | k in before - {sessions[c]} ensures k in after {
      var d :| d in clients && sessions[d] == k;
      assert d in clients - {c};
    }
  }

  /** `s` lists every element of `S`, each exactly once. */
  ghost predicate Enumerates<T>(s: seq<T>, S: set<T>) {
    && (forall i, j | 0 <= i < j < |s| :: s[i] != s[j])
    && (forall i | 0 <= i < |s| :: s[i] in S)
    && (forall x | x in S :: x in s)
  }

  /** An enumeration is exactly as long as the set it lists: a broadcast
      sends one message per recipient. */
  lemma {:induction false} EnumeratesSize<T>(s: seq<T>, S: set<T>)
    requires Enumerates(s, S)
    ensures |s| == |S|
    decreases |s|
  {
    if s != [] {
      var front, x := s[..|s| - 1], s[|s| - 1];
      assert Enumerates(front, S - {x}) by {
        forall y | y in S - {x} ensures y in front {
          var i :| 0 <= i < |s| && s[i] == y;
          assert i < |front| && front[i] == y;
        }
      }
      EnumeratesSize(front, S - {x});
    } else {
      assert forall x | x in S :: false;
    }
  }

  /** With no exclusion a broadcast also reaches the sender; excluding a
      socket removes exactly that one. */
  lemma RecipientsExclusion(clients: map<Conn, ReadyState>, c: Conn)
    ensures Recipients(clients, Some(c)) == Recipients(clients, None) - {c}
    ensures c in clients && clients[c] == Open ==> c in Recipients(clients, None)
    ensures c !in Recipients(clients, Some(c))
  {
  }

  /** One copy of `m` for each socket of `to`, in that order. */
  function Deliveries(to: seq<Conn>, m: ServerMessage): seq<Delivery>
  {
    if to == [] then [] else Deliveries(to[..|to| - 1], m) + [Delivery(to[|to| - 1], m)]
  }

  /** The `i`-th delivery of a broadcast goes to its `i`-th recipient. */
  lemma {:induction false} DeliveriesAt(to: seq<Conn>, m: ServerMessage)
    ensures |Deliveries(to, m)| == |to|
    ensures forall i | 0 <= i < |to| :: Deliveries(to, m)[i] == Delivery(to[i], m)
    decreases |to|
  {
    if to != [] {
      DeliveriesAt(to[..|to| - 1], m);
    }
  }

  /** After visiting all of `targets` but `rest`, `sent` lists the visited
      targets once each. */
  ghost predicate Walked<T>(sent: seq<T>, targets: set<T>, rest: set<T>) {
    && (forall i, j | 0 <= i < j < |sent| :: sent[i] != sent[j])
    && (forall i | 0 <= i < |sent| :: sent[i] in targets && sent[i] !in rest)
    && (forall x | x in targets && x !in rest :: x in sent)
  }

  lemma WalkStep<T>(sent: seq<T>, targets: set<T>, rest: set<T>, c: T)
    requires Walked(sent, targets, rest) && c in rest
    ensures c in targets ==> Walked(sent + [c], targets, rest - {c})
    ensures c !in targets ==> Walked(sent, targets, rest - {c})
  {
  }

  lemma WalkDone<T>(sent: seq<T>, targets: set<T>)
    requires Walked(sent, targets, {})
    ensures Enumerates(sent, targets)
  {
  }

  lemma DeliveriesSnoc(to: seq<Conn>, c: Conn, m: ServerMessage)
    ensures Deliveries(to + [c], m) == Deliveries(to, m) + [Delivery(c, m)]
  {
    assert (to + [c])[..|to|] == to;
  }

  /** `s` lists the values of the registry `m`, one entry per key. */
  ghost predicate Lists(s: seq<PlayerState>, m: map<Id, PlayerState>) {
    && (forall i, j | 0 <= i < j < |s| :: s[i].id != s[j].id)
    && (forall i | 0 <= i < |s| :: s[i].id in m && m[s[i].id] == s[i])
    && (forall k | k in m :: m[k] in s)
  }

  /** `Object.values(players)`, in some order. */
  method ValuesOf(m: map<Id, PlayerState>) returns (s: seq<PlayerState>)
    requires forall k | k in m :: m[k].id == k
    ensures Lists(s, m)
  {
    s := [];
    var rest := m.Keys;
    while rest != {}
      invariant rest <= m.Keys
      invariant forall i, j | 0 <= i < j < |s| :: s[i].id != s[j].id
      invariant forall i | 0 <= i < |s| :: s[i].id in m && s[i].id !in rest && m[s[i].id] == s[i]
      invariant forall k | k in m && k !in rest :: m[k] in s
    {
      var k :| k in rest;
      s := s + [m[k]];
      rest := rest - {k};
    }
  }

  class Relay {
    /** The registry: player id to player record. */
    var players: map<Id, PlayerState>
    /** Every socket ever accepted, with the id its handlers captured. */
    var sessions: map<Conn, Id>
    /** `wss.clients`: the sockets the server still holds, with their state. */
    var clients: map<Conn, ReadyState>
    /** Every message sent so far, in order. */
    var outbox: seq<Delivery>

    /** The registry holds exactly one entry per connected socket, keyed by
        that socket's id; ids are never reused. */
    ghost predicate Valid()
      reads this
    {
      && (forall k | k in players :: players[k].id == k)
      && clients.Keys <= sessions.Keys
      && (forall c, d | c in sessions && d in sessions && c != d :: sessions[c] != sessions[d])
      && players.Keys == Live(clients, sessions)
    }

    constructor ()
      ensures Valid()
      ensures players == map[] && sessions == map[] && clients == map[] && outbox == []
    {
      players, sessions, clients, outbox := map[], map[], map[], [];
    }

    /** `broadcast(data, exclude)`: one copy to each OPEN client other than
        `exclude`; `sent` is the order the client set was walked in. */
    method Broadcast(m: ServerMessage, exclude: Option<Conn>) returns (sent: seq<Conn>)
      modifies this`outbox
      ensures Enumerates(sent, Recipients(clients, exclude))
      ensures outbox == old(outbox) + Deliveries(sent, m)
    {
      sent := [];
      ghost var targets := Recipients(clients, exclude);
      var rest := clients.Keys;
      while rest != {}
        invariant rest <= clients.Keys
        invariant Walked(sent, targets, rest)
        invariant outbox == old(outbox) + Deliveries(sent, m)
      {
        var c :| c in rest;
        WalkStep(sent, targets, rest, c);
        if exclude != Some(c) && clients[c] == Open {
          assert c in targets;
          DeliveriesSnoc(sent, c, m);
          outbox := outbox + [Delivery(c, m)];
          sent := sent + [c];
        }
        rest := rest - {c};
      }
      WalkDone(sent, targets);
    }

    /** The `connection` handler for a new socket `c`; `id` is the value of
        `crypto.randomUUID()`, which was never issued before. */
    method OnConnection(c: Conn, id: Id) returns (snapshot: seq<PlayerState>, spawned: seq<Conn>)
      requires Valid()
      requires c !in sessions
      requires id !in sessions.Values
      modifies this
      ensures Valid()
      ensures sessions == old(sessions)[c := id] && clients == old(clients)[c := Open]
      ensures id !in old(players) && players == old(players)[id := Joined(id)]
      ensures Lists(snapshot, players)
      ensures Enumerates(spawned, Recipients(clients, Some(c))) && c !in spawned
      ensures outbox == old(outbox) + [Delivery(c, Init(snapshot, id))] + Deliveries(spawned, Spawn(Joined(id)))
    {
      // the ws library adds the socket to the client set before 'connection'
      clients := clients[c := Open];
      sessions := sessions[c := id];
      players := players[id := Joined(id)];
      LiveAdd(old(clients), old(sessions), c, Open, id);
      snapshot := ValuesOf(players);
      outbox := outbox + [Delivery(c, Init(snapshot, id))];
      spawned := Broadcast(Spawn(players[id]), Some(c));
    }

    /** The `shoot` branch of socket `c`'s `message` handler: the shot is
        relayed, unvalidated, to everyone else; `hitId` is not read. */
    method OnShoot(c: Conn, origin: Vec3, direction: Vec3) returns (sent: seq<Conn>)
      requires c in sessions
      modifies this`outbox
      ensures Enumerates(sent, Recipients(clients, Some(c))) && c !in sent
      ensures outbox == old(outbox) + Deliveries(sent, PlayerFired(sessions[c], origin, direction))
    {
      sent := Broadcast(PlayerFired(sessions[c], origin, direction), Some(c));
    }

    /** The `input` branch of socket `c`'s `message` handler. */
    method OnInput(c: Conn, x: real, y: real, z: real, rotY: real, rotX: real) returns (sent: seq<Conn>)
      requires Valid() && c in sessions
      modifies this`players, this`outbox
      ensures Valid()
      ensures var id := sessions[c];
        if id in old(players) then
          && players == old(players)[id := old(players)[id].(x := x, y := y, z := z, rotY := rotY, rotX := rotX)]
          && Enumerates(sent, Recipients(clients, None))
          && outbox == old(outbox) + Deliveries(sent, Update(players[id]))
        else
          players == old(players) && sent == [] && outbox == old(outbox)
    {
      var id := sessions[c];
      if id !in players {
        return [];
      }
      players := players[id := players[id].(x := x, y := y, z := z, rotY := rotY, rotX := rotX)];
      sent := Broadcast(Update(players[id]), None);
    }

    /** The `message` handler of socket `c`. It may run for a socket that is
        already closed, whose id is then no longer registered. */
    method OnMessage(c: Conn, msg: ClientMessage) returns (sent: seq<Conn>)
      requires Valid() && c in sessions
      modifies this`players, this`outbox
      ensures Valid()
      ensures match msg
        case Shoot(origin, direction, _) =>
          && players == old(players)
          && Enumerates(sent, Recipients(clients, Some(c)))
          && outbox == old(outbox) + Deliveries(sent, PlayerFired(sessions[c], origin, direction))
        case Input(x, y, z, rotY, rotX) =>
          var id := sessions[c];
          if id in old(players) then
            && players == old(players)[id := old(players)[id].(x := x, y := y, z := z, rotY := rotY, rotX := rotX)]
            && Enumerates(sent, Recipients(clients, None))
            && outbox == old(outbox) + Deliveries(sent, Update(players[id]))
          else
            players == old(players) && sent == [] && outbox == old(outbox)
        case Unknown =>
          players == old(players) && sent == [] && outbox == old(outbox)
    {
      match msg
      case Shoot(origin, direction, _) =>
        sent := OnShoot(c, origin, direction);
      case Input(x, y, z, rotY, rotX) =>
        sent := OnInput(c, x, y, z, rotY, rotX);
      case Unknown =>
        sent := [];
    }

    /** The `close` handler of socket `c`. The ws library has already taken
        the socket out of the client set when this runs. */
    method OnClose(c: Conn) returns (sent: seq<Conn>)
      requires Valid() && c in sessions
      modifies this`players, this`clients, this`outbox
      ensures Valid()
      ensures clients == old(clients) - {c}
      ensures players == old(players) - {sessions[c]}
      ensures Enumerates(sent, Recipients(clients, None)) && c !in sent
      ensures outbox == old(outbox) + Deliveries(sent, Despawn(sessions[c]))
    {
      var id := sessions[c];
      LiveRemove(clients, sessions, c);
      clients := clients - {c};
      players := players - {id};
      sent := Broadcast(Despawn(id), None);
    }

    /** The transport changes the state of a socket it still holds, for
        instance when a closing handshake starts. */
    method SetReadyState(c: Conn, s: ReadyState)
      requires Valid() && c in clients
      modifies this`clients
      ensures Valid()
      ensures clients == old(clients)[c := s]
    {
      clients := clients[c := s];
      assert Live(clients, sessions) == Live(old(clients), sessions);
    }
  }

  method Connect(r: Relay, c: Conn, id: Id)
    requires r.Valid() && c !in r.sessions && id !in r.sessions.Values
    modifies r
    ensures r.Valid()
    ensures r.clients == old(r.clients)[c := Open] && r.sessions == old(r.sessions)[c := id]
  {
    var _, _ := r.OnConnection(c, id);
  }

  /** A relay after sockets 0, 1 and 2 connected with ids A, B and C. */
  method ThreePlayers() returns (r: Relay)
    ensures fresh(r) && r.Valid()
    ensures r.clients == map[0 := Open, 1 := Open, 2 := Open]
    ensures r.sessions == map[0 := "A", 1 := "B", 2 := "C"]
  {
    r := new Relay();
    Connect(r, 0, "A");
    Connect(r, 1, "B");
    Connect(r, 2, "C");
  }

  /** A fires: exactly B and C receive one `playerFired` each, A none. */
  method ShootFanOut(r: Relay, origin: Vec3, direction: Vec3) returns (sent: seq<Conn>)
    requires r.Valid()
    requires r.clients == map[0 := Open, 1 := Open, 2 := Open]
    requires r.sessions == map[0 := "A", 1 := "B", 2 := "C"]
    modifies r
    ensures |sent| == 2 && 1 in sent && 2 in sent && 0 !in sent
    ensures r.outbox == old(r.outbox) + Deliveries(sent, PlayerFired("A", origin, direction))
  {
    sent := r.OnShoot(0, origin, direction);
    assert Recipients(r.clients, Some(0)) == {1, 2};
    EnumeratesSize(sent, {1, 2});
  }
}
