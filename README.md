# GameRoom: the room lifecycle of a two-player pong server

This project models `GameRoom`, the orchestrator of one room of a multiplayer pong server. A room has:

- a type string and a name, both fixed at construction;
- a player registry: at most one player per side, each bound to a socket;
- a shared ball;
- the flags `started` and `empty`;
- one synchronisation engine, chosen by the type string: `lockstep`, `terminalclient` or `predictiveclient`.

Four events drive the room:

- a player joins (`addPlayer`);
- a player disconnects (`handleDisconnect`), which may reset the whole room (`reset`);
- the room starts when its second player arrives (`start`);
- the start callback runs after a delay.

The model is a Dafny class, `GameRooms.GameRoom`, with the source's fields. Its methods change those fields step by step, as the source does.

Everything the room does that can be observed from outside goes into one sequence, `trace`, in order:

- every message sent on a socket, with its event name and data;
- every call made on an engine instance (`addSocket`, `start`, `stop`).

Each `new PlayerManager()`, `new Ball()` and `new Lockstep(...)`/`TerminalClient`/`PredictiveClient` draws a fresh instance id from a counter. That makes "replaced by a new ball" or "the same engine instance" something a contract can state.

Calling a method on an engine that does not exist throws a `TypeError` in the source. This happens when the room type is unrecognised. The model returns the outcome `EngineMissing` at that point, and keeps every change made before the call.

`gameroom.dfy` holds the model:

- the value types;
- the engine selection by type string;
- the registry seen as a list (`getPlayers`, `getSockets`);
- `_.object`, which builds the snapshot's player map;
- the broadcast;
- the class.

`scenarios.dfy` drives whole sessions through the class. Each one states the exact trace it produces.

## Model

| member | source | states |
|---|---|---|
| `GameRooms.VariantOfNames` | app/gameroom.js:23-28 | a type string selects a variant exactly when it is that variant's name (`lockstep`, `terminalclient`, `predictiveclient`) |
| `GameRooms.VariantOfUnrecognized` | app/gameroom.js:23-29 | a type string selects no engine exactly when it is none of the three names |
| `GameRooms.GameRoom.constructor` | app/gameroom.js:8-30 | an empty registry, distinct fresh registry and ball instances, `started` and `empty` false, nothing sent, no start pending; an engine exists exactly when the type names a variant, and then it is of that variant and a fresh instance |
| `GameRooms.GameRoom.AddPlayer` | app/gameroom.js:32-49 | the player is registered on its side; with an engine: one `addSocket` call, then one `joined_room` message to the joining socket only, whose snapshot holds the registry including the joiner, the current ball and the pre-join `started`; the room starts (`started` set, one deferred start scheduled) exactly when the count becomes 2; without an engine: the player stays registered and nothing is sent (the `TypeError` of line 36); ball, registry, engine and `empty` unchanged |
| `GameRooms.GameRoom.Emit` | app/gameroom.js:55-59 | appends one message per registered socket, in registry order, and changes nothing else |
| `GameRooms.GameRoom.GetPlayerCount` | app/gameroom.js:61-63 | the count is at most 2; it is 0 exactly when the registry is empty and 2 exactly when both sides are taken |
| `GameRooms.GameRoom.GetState` | app/gameroom.js:65-75 | the snapshot's player map, built with `_.object` from the player list, is exactly the registry keyed by side; it carries the current ball and `started` |
| `GameRooms.GameRoom.HandleDisconnect` | app/gameroom.js:77-89 | the side is removed and `started` ends false, with a new ball. If nobody is left: `empty` is set, the registry is new and empty, and the engine is a new instance of the same variant; the old engine is stopped first unless it is lockstep. If somebody is left: registry, engine instance and `empty` are unchanged, the same engine gets one `stop`, and every remaining socket gets one `state_reset` with `started` false and the new ball |
| `GameRooms.GameRoom.PartialReset` | app/gameroom.js:84-87 | `started` false, a ball never used before, one `stop` on the unchanged engine instance, then one `state_reset` per registered socket; players, registry and `empty` unchanged |
| `GameRooms.GameRoom.Reset` | app/gameroom.js:91-104 | fresh, distinct ball and registry, an empty registry, `started` false; a new engine instance of the same variant; for `lockstep` the old engine is dropped without `stop`, for `terminalclient`/`predictiveclient` it gets exactly one `stop` before being replaced; no engine stays no engine; `empty` and pending starts unchanged |
| `GameRooms.GameRoom.Start` | app/gameroom.js:106-111 | `started` is true at once and one more deferred start is pending |
| `GameRooms.GameRoom.FireDeferredStart` | app/gameroom.js:112-115 | consumes one pending start; sends `state` with the snapshot as it is now to every registered socket, then calls `start` on the current engine; no check of the player count |
| `GameRooms.CountBySides` | app/gameroom.js:61-63 | a registry's size is the number of occupied sides, hence never more than 2 |
| `GameRooms.PlayerPairsOfRegistry` | app/gameroom.js:66-68 | the player list has one entry per registered player, each with its side and socket, with no side twice |
| `GameRooms.SocketsOfRegistry` | app/gameroom.js:56 | the socket list has one entry per registered player and holds exactly the registered sockets |
| `GameRooms.ObjectOfKeys` | app/gameroom.js:66-68 | the keys of the object built by `_.object` are exactly the keys of the pairs |
| `GameRooms.ObjectOfDistinct` | app/gameroom.js:66-68 | when no key repeats, every pair is found in the built object with its value |
| `GameRooms.ObjectOfMap` | app/gameroom.js:66-68 | pairs with distinct keys build exactly the map holding each pair and nothing else |
| `GameRooms.PlayersObject` | app/gameroom.js:66-68 | `_.object` of the registry's player list gives back the registry |
| `GameRooms.BroadcastAt` | app/gameroom.js:55-59 | a broadcast is one message per socket, in the sockets' order, each with the same event and data |
| `GameRooms.BroadcastToRegistry` | app/gameroom.js:55-59 | a broadcast to the registry has one message per player, reaches every registered socket, and sends only to registered sockets, with the given event and data |
| `RoomScenarios.LockstepJoins` | app/gameroom.js:32-48 | in a lockstep room, X then Y join. X's acknowledgement shows X alone. Y's shows both players with `started` false. Afterwards the room is started and one deferred start is pending |
| `RoomScenarios.LockstepDeferredStart` | app/gameroom.js:106-116 | once the deferred start runs, both players get the started two-player `state`, and only then is the engine started |
| `RoomScenarios.LockstepSecondLeaves` | app/gameroom.js:77-89 | when Y leaves a started lockstep room, the same engine is stopped and kept, and X gets `state_reset` with X alone, `started` false and a new ball |
| `RoomScenarios.DisconnectBeforeDeferredStart` | app/gameroom.js:77-116 | if Y leaves before the deferred start runs, the start still fires: it sends a one-player `state` to X and calls `start` on the engine the disconnect just stopped |
| `RoomScenarios.TerminalRoomEmpties` | app/gameroom.js:97-99 | when the last player of a `terminalclient` room leaves, the room is marked empty, and the old engine is stopped and replaced by a new `TerminalClient` instance |
| `RoomScenarios.LockstepRoomEmpties` | app/gameroom.js:95-96 | when the last player of a `lockstep` room leaves, the engine is replaced by a new `Lockstep` instance, and the old one is never stopped |
| `RoomScenarios.UnknownTypeJoin` | app/gameroom.js:23-36 | in a room whose type names no engine, a join registers the player and then fails at the engine call, before anything is sent |

## Behaviour as coded

The model follows the code. In these places the code does something other than what one might expect of a room lifecycle:

- The `joined_room` snapshot is taken after the player is registered (lines 33 and 41). So it includes the joining player. The second joiner sees both players, with `started` still false.
- A disconnect that leaves a player only stops the engine (line 86). A `lockstep` engine is rebuilt only when the room empties (line 96).
- An unrecognised type leaves the room with no engine (lines 23-29). Nothing rejects it. The first `addPlayer` then fails at line 36, after the player was registered.
- `empty` is set at line 81 and never cleared. A room that has emptied once keeps `empty` true after new players join.
- The deferred start (lines 112-115) does not check the player count.
  - It broadcasts whatever state the room has when it runs, then starts the current engine.
  - If a player left in between, that is a one-player state, and the engine it starts has just been stopped.
  - If the room emptied in between, nothing is sent, and the engine started is the rebuilt one.

## Left out

- Sockets and their transport: `socket.emit` appends to `trace`, and a socket is a number. The `disconnect` handler bound at lines 51-53 is modelled as a call of `HandleDisconnect` with the side the handler was bound to.
- The `io` handle and the `options` object (lines 9-12): nothing in the room uses them beyond reading `type` and `name`.
- Real time and `setTimeout`. A scheduled callback is counted in `pendingStarts`, and it runs when `FireDeferredStart` is called. Every interleaving of disconnects and callbacks can be expressed this way; the delay itself is not modelled.
- `console.log` at line 111: an output effect with no bearing on the room's state.
- What `PlayerManager`, `Ball`, `Player`, `Lockstep`, `TerminalClient` and `PredictiveClient` do internally is not part of this model. Their source is not part of it either.
  - The registry is a map from side to socket.
  - `player.transmission()` is represented by the player's side and socket.
  - A ball and each engine are instance ids.
  - Engine calls are recorded in `trace`.
- The order of `getSockets()`/`getPlayers()` is assumed to be side A, then side B. Only the order of messages within one broadcast depends on this.
- Removing an absent side is taken to be a no-op on the registry. That behaviour belongs to `PlayerManager`, which is not shown.
- GameRooms.GameRoom.AddPlayer: the side comes in as a parameter with the precondition that it is free. This is an assumption about how `PlayerManager.addPlayer` assigns sides, not proved behaviour. A join on a full room, and what `PlayerManager` does then, is not modelled.
- GameRooms.GameRoom.PartialReset: lines 84-87 of `handleDisconnect` are a method of their own, so that each proof stays small. `HandleDisconnect` calls it where the source runs those lines inline.
- Exceptions other than calling a method on a missing engine are not modelled. Where that call throws, the method returns `EngineMissing` and leaves the remaining statements undone. The model does not show how the exception propagates to the caller.
