/**
 Client code for the room: whole sessions driven through the room's methods,
 each with the exact sequence of messages and engine calls it produces.
 */
module RoomScenarios {
  import opened GameRooms

  /** A broadcast to a full registry is one message to A's socket, then one to B's. */
  lemma BroadcastToBoth(x: Socket, y: Socket, event: string, data: Payload)
    ensures Broadcast(Sockets(map[A := x, B := y]), event, data) == [Send(x, event, data), Send(y, event, data)]
  {
    assert Sockets(map[A := x, B := y]) == [x, y];
    BroadcastAt([x, y], event, data);
  }

  /** A broadcast to a registry holding only side A is one message to A's socket. */
  lemma BroadcastToA(x: Socket, event: string, data: Payload)
    ensures Broadcast(Sockets(map[A := x]), event, data) == [Send(x, event, data)]
  {
    assert Sockets(map[A := x]) == [x];
    BroadcastAt([x], event, data);
  }

  /**
   A lockstep room "r1": X joins on side A, then Y on side B. X's
   acknowledgement shows X alone; Y's shows both players (the snapshot is
   taken after registration) with `started` still false. The room is then
   started and one deferred start is pending.
   */
  method LockstepJoins(x: Socket, y: Socket)
    returns (t: seq<Effect>, engine: Engine, ball: Id, started: bool, pending: nat)
    ensures engine.variant == Lockstep
    ensures t == [
      Invoke(engine.id, AddSocket(x, A)),
      Send(x, "joined_room", Joined(A, x, "r1", Snapshot(map[A := x], ball, false))),
      Invoke(engine.id, AddSocket(y, B)),
      Send(y, "joined_room", Joined(B, y, "r1", Snapshot(map[A := x, B := y], ball, false)))
    ]
    ensures started && pending == 1
  {
    var room := new GameRoom("lockstep", "r1");
    engine, ball := room.engine.value, room.ball;
    var o1 := room.AddPlayer(x, A);
    var o2 := room.AddPlayer(y, B);
    t, started, pending := room.trace, room.started, room.pendingStarts;
  }

  /**
   The same room once the deferred start runs: both players receive the
   started two-player state, and only then is the engine started.
   */
  method LockstepDeferredStart(x: Socket, y: Socket) returns (tail: seq<Effect>, engine: Engine, ball: Id)
    ensures tail == [
      Send(x, "state", Snap(Snapshot(map[A := x, B := y], ball, true))),
      Send(y, "state", Snap(Snapshot(map[A := x, B := y], ball, true))),
      Invoke(engine.id, StartEngine)
    ]
  {
    var room := new GameRoom("lockstep", "r1");
    engine, ball := room.engine.value, room.ball;
    var o1 := room.AddPlayer(x, A);
    var o2 := room.AddPlayer(y, B);
    ghost var joined := room.trace;
    BroadcastToBoth(x, y, "state", Snap(Snapshot(map[A := x, B := y], ball, true)));
    var o3 := room.FireDeferredStart();
    assert room.trace[|joined|..] == room.trace[4..];
    tail := room.trace[4..];
  }

  /**
   Then Y leaves: the same lockstep engine is stopped (not rebuilt), and X
   receives a reset, not-started state holding X alone and a new ball.
   */
  method LockstepSecondLeaves(x: Socket, y: Socket)
    returns (tail: seq<Effect>, engine: Engine, ball0: Id, ball1: Id, engineAfter: Option<Engine>)
    ensures ball1 != ball0 && engineAfter == Some(engine)
    ensures tail == [
      Invoke(engine.id, StopEngine),
      Send(x, "state_reset", Snap(Snapshot(map[A := x], ball1, false)))
    ]
  {
    var room := new GameRoom("lockstep", "r1");
    engine, ball0 := room.engine.value, room.ball;
    var o1 := room.AddPlayer(x, A);
    var o2 := room.AddPlayer(y, B);
    BroadcastToBoth(x, y, "state", Snap(Snapshot(map[A := x, B := y], ball0, true)));
    var o3 := room.FireDeferredStart();
    assert |room.trace| == 7;
    var o4 := room.HandleDisconnect(B);
    assert map[A := x, B := y] - {B} == map[A := x];
    ball1 := room.ball;
    BroadcastToA(x, "state_reset", Snap(Snapshot(map[A := x], ball1, false)));
    tail, engineAfter := room.trace[7..], room.engine;
  }

  /**
   The second player leaves before the deferred start runs: the start still
   fires, broadcasting a one-player, not-started state to the remaining
   player and starting the engine that the disconnect had just stopped.
   */
  method DisconnectBeforeDeferredStart(x: Socket, y: Socket)
    returns (tail: seq<Effect>, engine: Engine, ball: Id, count: nat)
    ensures tail == [
      Invoke(engine.id, StopEngine),
      Send(x, "state_reset", Snap(Snapshot(map[A := x], ball, false))),
      Send(x, "state", Snap(Snapshot(map[A := x], ball, false))),
      Invoke(engine.id, StartEngine)
    ]
    ensures count == 1
  {
    var room := new GameRoom("predictiveclient", "r2");
    engine := room.engine.value;
    var o1 := room.AddPlayer(x, A);
    var o2 := room.AddPlayer(y, B);
    assert |room.trace| == 4;
    var o3 := room.HandleDisconnect(B);
    assert map[A := x, B := y] - {B} == map[A := x];
    ball := room.ball;
    BroadcastToA(x, "state_reset", Snap(Snapshot(map[A := x], ball, false)));
    assert room.trace[4..] == [Invoke(engine.id, StopEngine), Send(x, "state_reset", Snap(Snapshot(map[A := x], ball, false)))];
    BroadcastToA(x, "state", Snap(Snapshot(map[A := x], ball, false)));
    var o4 := room.FireDeferredStart();
    tail, count := room.trace[4..], room.GetPlayerCount();
  }

  /**
   The last player of a terminal-client room leaves: the room is marked
   empty, the old engine is stopped and replaced by a new engine of the
   same kind, and the registry and the ball are new.
   */
  method TerminalRoomEmpties(x: Socket)
    returns (t: seq<Effect>, engine: Engine, ball: Id, engineAfter: Option<Engine>, empty: bool)
    ensures t == [
      Invoke(engine.id, AddSocket(x, A)),
      Send(x, "joined_room", Joined(A, x, "t1", Snapshot(map[A := x], ball, false))),
      Invoke(engine.id, StopEngine)
    ]
    ensures engineAfter.Some? && engineAfter.value.variant == TerminalClient && engineAfter.value.id != engine.id
    ensures empty
  {
    var room := new GameRoom("terminalclient", "t1");
    engine, ball := room.engine.value, room.ball;
    var o1 := room.AddPlayer(x, A);
    var o2 := room.HandleDisconnect(A);
    assert map[A := x] - {A} == map[];
    t, engineAfter, empty := room.trace, room.engine, room.empty;
  }

  /**
   The last player of a lockstep room leaves: the engine is replaced by a
   new lockstep engine and the old one is never stopped.
   */
  method LockstepRoomEmpties(x: Socket)
    returns (t: seq<Effect>, engine: Engine, ball: Id, engineAfter: Option<Engine>)
    ensures t == [
      Invoke(engine.id, AddSocket(x, A)),
      Send(x, "joined_room", Joined(A, x, "l1", Snapshot(map[A := x], ball, false)))
    ]
    ensures engineAfter.Some? && engineAfter.value.variant == Lockstep && engineAfter.value.id != engine.id
  {
    var room := new GameRoom("lockstep", "l1");
    engine, ball := room.engine.value, room.ball;
    var o1 := room.AddPlayer(x, A);
    var o2 := room.HandleDisconnect(A);
    assert map[A := x] - {A} == map[];
    t, engineAfter := room.trace, room.engine;
  }

  /**
   A room whose type names no engine: a joining player is registered, and
   the join then fails at the engine call, before any acknowledgement.
   */
  method UnknownTypeJoin(x: Socket) returns (outcome: Outcome, count: nat, t: seq<Effect>)
    ensures outcome == EngineMissing && count == 1 && t == []
  {
    var room := new GameRoom("pong", "p1");
    assert VariantOf("pong") == None;
    outcome := room.AddPlayer(x, A);
    count, t := room.GetPlayerCount(), room.trace;
  }
}
