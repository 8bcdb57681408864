/**
 A model of the room orchestrator of a two-player pong server: a room keeps a
 registry of players by side, a shared ball, the flags `started` and `empty`,
 and one synchronisation engine chosen by the room's type string.

 Everything the room does that the outside world can observe is recorded, in
 order, in `trace`: the messages it sends on sockets and the calls it makes
 on its engine. The player registry, the ball and the engines are not part of
 this model beyond their identity: each `new` draws a fresh instance id.
 */
module GameRooms {

  datatype Option<T> = None | Some(value: T)

  /** The two player slots of a room. */
  datatype Side = A | B

  /** A connection handle, and the identity of an allocated instance. */
  type Socket = nat
  type Id = nat

  /** The three synchronisation engines a room can be built with. */
  datatype Variant = Lockstep | TerminalClient | PredictiveClient

  /** One engine instance: its kind and its identity. */
  datatype Engine = Engine(variant: Variant, id: Id)

  datatype EngineOp = AddSocket(socket: Socket, side: Side) | StartEngine | StopEngine

  /** The broadcastable room state: players by side, the ball instance, the start flag. */
  datatype Snapshot = Snapshot(players: map<Side, Socket>, ball: Id, started: bool)

  /** The data of a message: the join acknowledgement, or a bare snapshot. */
  datatype Payload =
    | Joined(side: Side, socket: Socket, room: string, state: Snapshot)
    | Snap(state: Snapshot)

  /** An observable effect: a message on a socket, or a call on an engine instance. */
  datatype Effect =
    | Send(to: Socket, event: string, data: Payload)
    | Invoke(engine: Id, op: EngineOp)

  /** How an operation ended: normally, or by calling a method on an engine that does not exist. */
  datatype Outcome = Done | EngineMissing

  // ---------------------------------------------------------------------------
  // Engine selection by type string

  /** The type string that selects an engine variant. */
  function TypeName(v: Variant): string
  {
    match v
    case Lockstep => "lockstep"
    case TerminalClient => "terminalclient"
    case PredictiveClient => "predictiveclient"
  }

  /** The engine variant a room of type `t` builds, if any. */
  function VariantOf(t: string): Option<Variant>
  {
    if t == "lockstep" then Some(Lockstep)
    else if t == "terminalclient" then Some(TerminalClient)
    else if t == "predictiveclient" then Some(PredictiveClient)
    else None
  }

  /** `VariantOf` is the inverse of `TypeName`, in both directions. */
  lemma VariantOfNames(t: string, v: Variant)
    ensures VariantOf(t) == Some(v) <==> t == TypeName(v)
  {
    assert |"lockstep"| < |"terminalclient"| < |"predictiveclient"|;
  }

  /** A type string names no engine exactly when it is none of the three names. */
  lemma VariantOfUnrecognized(t: string)
    ensures VariantOf(t) == None <==> forall v :: t != TypeName(v)
  {
    if VariantOf(t) == None {
      forall v ensures t != TypeName(v) { VariantOfNames(t, v); }
    } else {
      VariantOfNames(t, VariantOf(t).value);
    }
  }

  // ---------------------------------------------------------------------------
  // The player registry seen as a list, and the object built from it

  /** A registry holds one player per occupied side, so at most two. */
  lemma CountBySides<V>(m: map<Side, V>)
    ensures |m| == (if A in m then 1 else 0) + (if B in m then 1 else 0)
    ensures |m| <= 2
  {
    forall k | k in m.Keys ensures k == A || k == B { }
    if A in m && B in m {
      assert m.Keys == {A, B};
    } else if A in m {
      assert m.Keys == {A};
    } else if B in m {
      assert m.Keys == {B};
    } else {
      assert m.Keys == {};
    }
  }

  /** The registered players as (side, socket) pairs, side A first. */
  function PlayerPairs(players: map<Side, Socket>): seq<(Side, Socket)>
  {
    (if A in players then [(A, players[A])] else []) + (if B in players then [(B, players[B])] else [])
  }

  /** The sockets of the registered players, side A first. */
  function Sockets(players: map<Side, Socket>): seq<Socket>
  {
    (if A in players then [players[A]] else []) + (if B in players then [players[B]] else [])
  }

  /** The player list holds each registered player once, keyed by its side, and nothing else. */
  lemma PlayerPairsOfRegistry(players: map<Side, Socket>)
    ensures |PlayerPairs(players)| == |players|
    ensures forall i :: 0 <= i < |PlayerPairs(players)| ==>
              PlayerPairs(players)[i].0 in players && players[PlayerPairs(players)[i].0] == PlayerPairs(players)[i].1
    ensures forall s :: s in players ==> (s, players[s]) in PlayerPairs(players)
    ensures forall i, j :: 0 <= i < j < |PlayerPairs(players)| ==> PlayerPairs(players)[i].0 != PlayerPairs(players)[j].0
  {
    CountBySides(players);
    forall s | s in players ensures (s, players[s]) in PlayerPairs(players) {
      match s
      case A =>
      case B =>
    }
  }

  /** The socket list holds one socket per registered player: the sockets of the registry, and only those. */
  lemma SocketsOfRegistry(players: map<Side, Socket>)
    ensures |Sockets(players)| == |players| <= 2
    ensures forall s :: s in players ==> players[s] in Sockets(players)
    ensures forall x :: x in Sockets(players) <==> x in players.Values
  {
    CountBySides(players);
    forall x | x in players.Values ensures x in Sockets(players) {
      var s :| s in players && players[s] == x;
      match s
      case A =>
      case B =>
    }
  }

  /** An object built from key/value pairs, a later pair overriding an earlier one with the same key. */
  function ObjectOf<K, V>(pairs: seq<(K, V)>): map<K, V>
  {
    if pairs == [] then map[]
    else ObjectOf(pairs[..|pairs| - 1])[pairs[|pairs| - 1].0 := pairs[|pairs| - 1].1]
  }

  /** The keys of the object are the keys of the pairs. */
  lemma {:induction false} ObjectOfKeys<K, V>(pairs: seq<(K, V)>)
    ensures ObjectOf(pairs).Keys == set i | 0 <= i < |pairs| :: pairs[i].0
  {
    if pairs != [] {
      var init := pairs[..|pairs| - 1];
      var last := pairs[|pairs| - 1];
      ObjectOfKeys(init);
      var m := ObjectOf(pairs);
      forall i | 0 <= i < |pairs| - 1 ensures pairs[i].0 in m.Keys {
        assert pairs[i] == init[i];
      }
      forall k | k in m.Keys ensures exists i :: 0 <= i < |pairs| && pairs[i].0 == k {
        if k != last.0 {
          var i :| 0 <= i < |init| && init[i].0 == k;
          assert pairs[i] == init[i];
        }
      }
    }
  }

  /** When no key repeats, every pair is found in the object built from the pairs. */
  lemma {:induction false} ObjectOfDistinct<K, V>(pairs: seq<(K, V)>)
    requires forall i, j :: 0 <= i < j < |pairs| ==> pairs[i].0 != pairs[j].0
    ensures forall i :: 0 <= i < |pairs| ==> pairs[i].0 in ObjectOf(pairs) && ObjectOf(pairs)[pairs[i].0] == pairs[i].1
  {
    if pairs != [] {
      var init := pairs[..|pairs| - 1];
      ObjectOfDistinct(init);
      forall i | 0 <= i < |pairs| - 1
        ensures pairs[i].0 in ObjectOf(pairs) && ObjectOf(pairs)[pairs[i].0] == pairs[i].1
      {
        assert pairs[i] == init[i];
      }
    }
  }

  /** Pairs with distinct keys build exactly the map that holds each pair and nothing else. */
  lemma ObjectOfMap<K, V>(pairs: seq<(K, V)>, m: map<K, V>)
    requires forall i, j :: 0 <= i < j < |pairs| ==> pairs[i].0 != pairs[j].0
    requires forall i :: 0 <= i < |pairs| ==> pairs[i].0 in m && m[pairs[i].0] == pairs[i].1
    requires forall k :: k in m ==> exists i :: 0 <= i < |pairs| && pairs[i].0 == k
    ensures ObjectOf(pairs) == m
  {
    ObjectOfKeys(pairs);
    ObjectOfDistinct(pairs);
    var o := ObjectOf(pairs);
    forall k | k in m ensures k in o && o[k] == m[k] {
      var i :| 0 <= i < |pairs| && pairs[i].0 == k;
    }
  }

  /** The object built from the registry's player list is the registry itself. */
  lemma PlayersObject(players: map<Side, Socket>)
    ensures ObjectOf(PlayerPairs(players)) == players
  {
    var ps := PlayerPairs(players);
    PlayerPairsOfRegistry(players);
    forall k | k in players ensures exists i :: 0 <= i < |ps| && ps[i].0 == k {
      var i :| 0 <= i < |ps| && ps[i] == (k, players[k]);
    }
    ObjectOfMap(ps, players);
  }

  // ---------------------------------------------------------------------------
  // Broadcast

  /** The messages that sending `data` under `event` on each of `sockets`, in order, produces. */
  function Broadcast(sockets: seq<Socket>, event: string, data: Payload): seq<Effect>
  {
    if sockets == [] then []
    else Broadcast(sockets[..|sockets| - 1], event, data) + [Send(sockets[|sockets| - 1], event, data)]
  }

  /** A broadcast is one message per socket, in the sockets' order, each carrying the same event and data. */
  lemma {:induction false} BroadcastAt(sockets: seq<Socket>, event: string, data: Payload)
    ensures |Broadcast(sockets, event, data)| == |sockets|
    ensures forall i :: 0 <= i < |sockets| ==> Broadcast(sockets, event, data)[i] == Send(sockets[i], event, data)
  {
    if sockets != [] {
      BroadcastAt(sockets[..|sockets| - 1], event, data);
    }
  }

  /** A broadcast to the registry reaches every registered socket and only those, one message per player. */
  lemma BroadcastToRegistry(players: map<Side, Socket>, event: string, data: Payload)
    ensures |Broadcast(Sockets(players), event, data)| == |players| <= 2
    ensures forall s :: s in players ==> Send(players[s], event, data) in Broadcast(Sockets(players), event, data)
    ensures forall e :: e in Broadcast(Sockets(players), event, data) ==>
              e.Send? && e.to in players.Values && e.event == event && e.data == data
  {
    var ss := Sockets(players);
    SocketsOfRegistry(players);
    BroadcastAt(ss, event, data);
    var msgs := Broadcast(ss, event, data);
    forall s | s in players ensures Send(players[s], event, data) in msgs {
      var i :| 0 <= i < |ss| && ss[i] == players[s];
      assert msgs[i] == Send(players[s], event, data);
    }
  }

  // ---------------------------------------------------------------------------
  // The room

  class GameRoom {
    /** The room's type string and name, fixed at construction. */
    const roomType: string
    const name: string
    /** The players of the current registry, by side, and the registry's identity. */
    var players: map<Side, Socket>
    var registry: Id
    /** The identity of the current ball. */
    var ball: Id
    var started: bool
    var empty: bool
    /** The current engine; there is none when the type string names no engine. */
    var engine: Option<Engine>
    /** The number of deferred start callbacks scheduled and not yet run. */
    var pendingStarts: nat
    /** The next instance id to hand out; every id in use is below it. */
    var nextId: Id
    /** Everything sent and every engine call made, in order. */
    var trace: seq<Effect>

    /** The room's invariant: ids in use are below `nextId`, and the engine matches the type string. */
    ghost predicate Valid()
      reads this`registry, this`ball, this`engine, this`nextId
    {
      && registry < nextId
      && ball < nextId
      && match engine
         case None => VariantOf(roomType) == None
         case Some(e) => VariantOf(roomType) == Some(e.variant) && e.id < nextId
    }

    /** A fresh registry and ball, and the engine the type string selects (or none). */
    constructor (roomType: string, name: string)
      ensures Valid()
      ensures this.roomType == roomType && this.name == name
      ensures players == map[] && !started && !empty && pendingStarts == 0 && trace == []
      ensures registry != ball
      ensures engine.Some? <==> VariantOf(roomType).Some?
      ensures engine.Some? ==> engine.value.variant == VariantOf(roomType).value
                               && engine.value.id != registry && engine.value.id != ball
    {
      this.roomType := roomType;
      this.name := name;
      players, registry := map[], 0;
      ball := 1;
      empty, started := false, false;
      pendingStarts, trace := 0, [];
      if roomType == "lockstep" {
        engine := Some(Engine(Lockstep, 2));
      } else if roomType == "terminalclient" {
        engine := Some(Engine(TerminalClient, 2));
      } else if roomType == "predictiveclient" {
        engine := Some(Engine(PredictiveClient, 2));
      } else {
        engine := None;
      }
      nextId := 3;
    }

    /** Allocation of a new instance: the id was never used before. */
    method NewInstance() returns (id: Id)
      modifies this`nextId
      ensures id == old(nextId) && nextId == id + 1
    {
      id := nextId;
      nextId := nextId + 1;
    }

    /** The number of registered players. */
    function GetPlayerCount(): (n: nat)
      reads this
      ensures n <= 2
      ensures n == 0 <==> players == map[]
      ensures n == 2 <==> A in players && B in players
    {
      CountBySides(players);
      |players|
    }

    /** The room's snapshot: one entry per registered player keyed by side, the ball and `started`. */
    function GetState(): (s: Snapshot)
      reads this
      ensures s.players == players && s.ball == ball && s.started == started
    {
      PlayersObject(players);
      Snapshot(ObjectOf(PlayerPairs(players)), ball, started)
    }

    /** Sends `data` under `event` on every registered socket; nothing else changes. */
    method Emit(event: string, data: Payload)
      modifies this`trace
      ensures trace == old(trace) + Broadcast(Sockets(players), event, data)
    {
      var sockets := Sockets(players);
      var i := 0;
      while i < |sockets|
        invariant 0 <= i <= |sockets|
        invariant trace == old(trace) + Broadcast(sockets[..i], event, data)
      {
        assert sockets[..i + 1][..i] == sockets[..i];
        trace := trace + [Send(sockets[i], event, data)];
        i := i + 1;
      }
      assert sockets[..i] == sockets;
    }

    /**
     Registers `socket` on `side`, binds it to the engine, acknowledges the join
     to that socket alone with a snapshot taken after registration, and starts
     the room when it now holds two players. The side is the one the registry
     hands out; that it is a free side is assumed of the registry.
     */
    method AddPlayer(socket: Socket, side: Side) returns (outcome: Outcome)
      requires Valid()
      requires side !in players
      modifies this
      ensures Valid()
      ensures players == old(players)[side := socket]
      ensures registry == old(registry) && ball == old(ball) && engine == old(engine)
      ensures empty == old(empty) && nextId == old(nextId)
      ensures outcome == Done <==> engine.Some?
      ensures engine.None? ==>
                started == old(started) && pendingStarts == old(pendingStarts) && trace == old(trace)
      ensures engine.Some? ==>
                trace == old(trace) + [ Invoke(engine.value.id, AddSocket(socket, side)),
                                        Send(socket, "joined_room", Joined(side, socket, name, Snapshot(players, ball, old(started)))) ]
      ensures engine.Some? ==>
                started == (old(started) || |players| == 2)
                && pendingStarts == old(pendingStarts) + (if |players| == 2 then 1 else 0)
    {
      players := players[side := socket];
      if engine.None? {
        return EngineMissing;
      }
      trace := trace + [Invoke(engine.value.id, AddSocket(socket, side))];
      var state := GetState();
      trace := trace + [Send(socket, "joined_room", Joined(side, socket, name, state))];
      if GetPlayerCount() == 2 {
        Start();
      }
      outcome := Done;
    }

    /**
     A disconnect on `side`: the player leaves; a room left empty is marked
     empty and reset, otherwise it drops back to not started with a fresh ball,
     the same engine is stopped and the remaining players get `state_reset`.
     */
    method HandleDisconnect(side: Side) returns (outcome: Outcome)
      requires Valid()
      modifies this
      ensures Valid()
      ensures !started && pendingStarts == old(pendingStarts)
      ensures ball != old(ball) && ball >= old(nextId)
      ensures old(players) - {side} == map[] ==>
                && empty && players == map[] && outcome == Done
                && registry != old(registry) && registry >= old(nextId) && registry != ball
                && (old(engine).None? ==> engine.None? && trace == old(trace))
                && (old(engine).Some? ==>
                      && engine.Some? && engine.value.variant == old(engine).value.variant
                      && engine.value.id >= old(nextId) && engine.value.id != ball && engine.value.id != registry
                      && trace == old(trace) + (if engine.value.variant == Lockstep then []
                                                else [Invoke(old(engine).value.id, StopEngine)]))
      ensures old(players) - {side} != map[] ==>
                && players == old(players) - {side} && empty == old(empty)
                && registry == old(registry) && engine == old(engine)
                && (engine.None? ==> outcome == EngineMissing && trace == old(trace))
                && (engine.Some? ==>
                      && outcome == Done
                      && trace == old(trace) + [Invoke(engine.value.id, StopEngine)]
                                 + Broadcast(Sockets(players), "state_reset", Snap(Snapshot(players, ball, false))))
    {
      players := players - {side};
      if GetPlayerCount() == 0 {
        empty := true;
        Reset();
        outcome := Done;
      } else {
        outcome := PartialReset();
      }
    }

    /**
     The branch of a disconnect that leaves a player behind: the room is not
     started any more, gets a fresh ball, stops its engine (the same instance
     stays in place) and sends the new state to the remaining sockets.
     */
    method PartialReset() returns (outcome: Outcome)
      requires Valid()
      modifies this
      ensures Valid()
      ensures !started && ball != old(ball) && ball >= old(nextId)
      ensures players == old(players) && empty == old(empty) && pendingStarts == old(pendingStarts)
      ensures registry == old(registry) && engine == old(engine)
      ensures engine.None? ==> outcome == EngineMissing && trace == old(trace)
      ensures engine.Some? ==>
                && outcome == Done
                && trace == old(trace) + [Invoke(engine.value.id, StopEngine)]
                           + Broadcast(Sockets(players), "state_reset", Snap(Snapshot(players, ball, false)))
    {
      started := false;
      ball := NewInstance();
      if engine.None? {
        return EngineMissing;
      }
      trace := trace + [Invoke(engine.value.id, StopEngine)];
      var state := GetState();
      Emit("state_reset", Snap(state));
      outcome := Done;
    }

    /**
     Replaces the ball and the registry with fresh ones, clears `started` and
     rebuilds the engine of the room's type: a lockstep engine is dropped
     without being stopped, the other two are stopped before being replaced.
     */
    method Reset()
      requires Valid()
      modifies this
      ensures Valid()
      ensures players == map[] && !started
      ensures ball >= old(nextId) && registry >= old(nextId) && ball != registry
      ensures empty == old(empty) && pendingStarts == old(pendingStarts)
      ensures old(engine).None? ==> engine.None? && trace == old(trace)
      ensures old(engine).Some? ==>
                && engine.Some? && engine.value.variant == old(engine).value.variant
                && engine.value.id >= old(nextId) && engine.value.id != ball && engine.value.id != registry
                && trace == old(trace) + (if engine.value.variant == Lockstep then []
                                          else [Invoke(old(engine).value.id, StopEngine)])
    {
      ball := NewInstance();
      registry := NewInstance();
      players := map[];
      started := false;
      if roomType == "lockstep" {
        var id := NewInstance();
        engine := Some(Engine(Lockstep, id));
      } else if roomType == "terminalclient" {
        trace := trace + [Invoke(engine.value.id, StopEngine)];
        var id := NewInstance();
        engine := Some(Engine(TerminalClient, id));
      } else if roomType == "predictiveclient" {
        trace := trace + [Invoke(engine.value.id, StopEngine)];
        var id := NewInstance();
        engine := Some(Engine(PredictiveClient, id));
      }
    }

    /** Marks the room started at once and schedules the deferred start. */
    method Start()
      modifies this`started, this`pendingStarts
      ensures started && pendingStarts == old(pendingStarts) + 1
    {
      started := true;
      pendingStarts := pendingStarts + 1;
    }

    /**
     The deferred start callback: broadcasts the room's state as it is now to
     every registered socket, then starts the current engine. It does not
     check how many players are present.
     */
    method FireDeferredStart() returns (outcome: Outcome)
      requires Valid()
      requires pendingStarts > 0
      modifies this`trace, this`pendingStarts
      ensures pendingStarts == old(pendingStarts) - 1
      ensures outcome == Done <==> engine.Some?
      ensures trace == old(trace) + Broadcast(Sockets(players), "state", Snap(Snapshot(players, ball, started)))
                                  + (if engine.Some? then [Invoke(engine.value.id, StartEngine)] else [])
    {
      pendingStarts := pendingStarts - 1;
      var state := GetState();
      Emit("state", Snap(state));
      if engine.None? {
        return EngineMissing;
      }
      trace := trace + [Invoke(engine.value.id, StartEngine)];
      outcome := Done;
    }
  }
}
