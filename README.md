# NetPong participant handshake and movement commands, in Dafny

This project models the core of NetPong's two-player protocol between the
Pong server and the Pong client:

- the server's starting world (one ball, two paddles);
- the `Initialize` message the server sends to a user who has just connected.
  It carries that user's id as an int32 and is addressed to that user alone;
- the client's `InitMessageListener`, which completes the handshake. It is a
  small state machine over the client's initialised flag, its recorded user
  id and the release count of the semaphore that the joining thread waits on;
- `Client::Join`, which reports whether the handshake succeeded;
- the client's game loop, which turns key presses into `Move` commands;
- the server's `PlayerMessageListener`, which applies a `Move` to the
  sender's paddle.

Files and modules:

| file | module | models |
|---|---|---|
| wire.dfy | `Wire` | integer widths, `WriteInt`/`ReadInt` as a 4-byte codec, `ReadByte`, messages |
| entities.dfy | `Entities` | `Vec2`, the `Ball` and `Player` entities (classes with in-place fields) |
| server.dfy | `PongServer` | `Server` (constructor, `OnConnection`), `PlayerMessageListener`, the move rule |
| handshake.dfy | `Handshake` | the handshake as a pure state step, with its properties |
| client.dfy | `PongClient` | `Client` (constructor, `Join`, `Run`), `InitMessageListener`, the key decision |
| protocol.dfy | `Protocol` | the two sides together: handshake round trip, key to paddle movement |

The state that the C++ code updates in place is modelled as classes whose
methods assign fields: `Server`, `Client`, `Ball`, `Player` and both
listeners. Each method's postcondition ties the new state to a pure function
of the old one (`Handshake.Step`, `PongServer.Moved`). The lemmas then prove
the protocol's properties about those functions: idempotence, at most one
wake-up per message, the first acceptable id wins, and a move up then down
restores the paddle. The key decision of one loop iteration is a pure
function (`PongClient.Decide`). The loop itself is a method proved against
the function `PongClient.Sent`.

Choices the source leaves open:

- **int32 byte order.** The networking library that implements
  `WriteInt`/`ReadInt` is not part of this model. The model uses four bytes,
  least significant first, in two's complement. It proves both directions of
  the round trip: `Wire.DecodeEncodeInt32` and the contract of `Wire.DecodeInt32`.
- **Message size.** `GetMessageSize` is read as the number of payload bytes.
- **Coordinates.** `Vector2f32` values are integers here. Every constant and
  increment the code writes (2, 4, 20, 50, 64, 150, 300, ...) is integral.
- **Semaphore.** `m_InitSemaphore` is modelled as a count of releases
  (`Client.initReleases`). Starting from zero, this count is the number of
  times the join waiter has been woken.
- **Waiting in Join.** The listener runs on the network thread while `Join`
  waits. `Join` therefore takes, as an input, the `Initialize` message (if
  any) that reached the listener before the wait ended.

About the command handling in the code:

- Each `Move` message shifts the paddle's `Position.y` directly, by
  `2 + 2*user`. Byte 0 (W) adds to y, and any other byte subtracts from it.
  The code has no stop command and keeps no movement state between messages.
- Incoming commands are checked only for `user > 1`.
- Capacity and id assignment happen inside the networking library.

## Model

| member | source | states |
|---|---|---|
| `Wire.EncodeInt32` | source/Server.cpp:176 | `WriteInt` of the user id is exactly four bytes; its partners are `DecodeEncodeInt32` and `DecodeInt32` |
| `Wire.DecodeInt32` | source/InitMessageListener.cpp:50 | the decoding `ReadInt` applies: every 4-byte sequence is the encoding of exactly the int32 it decodes to, so the codec is a bijection |
| `Wire.DecodeEncodeInt32` | source/Server.cpp:176 | the int32 the server writes with `WriteInt` is exactly the int32 that `ReadInt` reads back |
| `Wire.ReadInt` | source/InitMessageListener.cpp:50 | `ReadInt` consumes the first four payload bytes; the payload is the encoding of the result followed by the unread rest |
| `Wire.ReadByte` | source/Server.cpp:58 | the direction byte is the first payload byte |
| `PongServer.InitializeMessage` | source/Server.cpp:169-176 | the message is named `Initialize`, has a 4-byte payload, and that payload decodes to the user id |
| `PongServer.Server.constructor` | source/Server.cpp:83-110 | ball at (300,150), size (20,20), direction (1,0); player 0 at (50,150) and player 1 at (550,150), each of size (20,64); the two players are distinct fresh entities |
| `PongServer.Server.OnConnection` | source/Server.cpp:166-196 | the message is named `Initialize`; its payload is exactly the 4-byte int32 of the user id and decodes back to that id; the recipient set is exactly that user |
| `PongServer.PlayerMessageListener.constructor` | source/Server.cpp:38-41 | the listener works on the given server |
| `PongServer.PlayerMessageListener.HandleMessage` | source/Server.cpp:43-76 | a sender id above 1, or a name other than `Move`, changes no player; a `Move` from user 0 or 1 sets only that player's position to `Moved` of the old one (x kept, y shifted by `2 + 2*user`); the other player, all sizes and the ball are unchanged |
| `PongServer.MoveStep` | source/Server.cpp:65 | the step of every user is at least 2 |
| `PongServer.Moved` | source/Server.cpp:63-70 | a move never changes x; y rises exactly when the byte is 0 and falls otherwise, by exactly the user's step |
| `PongServer.MovedStepPerUser` | source/Server.cpp:65-69 | user 0's paddle moves by 2 and user 1's by 4 |
| `PongServer.MoveUpThenDown` | source/Server.cpp:63-73 | a `Move(0)` and a `Move` with a nonzero byte from the same user cancel out, in either order |
| `PongServer.MovedAllBalance` | source/Server.cpp:63-73 | after any series of moves from one user, the paddle is (ups - downs) steps from where it started, whatever the order |
| `Handshake.Step` | source/InitMessageListener.cpp:35-85 | once initialised, nothing changes; otherwise the client becomes initialised if and only if the payload holds at least 4 bytes with an int32 in {0,1}, and it then records that id; the id is unchanged whenever the client ends uninitialised; the waiter is woken exactly when the client was uninitialised and the payload has at least 4 bytes |
| `Handshake.StepValid` | source/InitMessageListener.cpp:73-83 | an initialised client always holds id 0 or 1 |
| `Handshake.StepIdempotent` | source/InitMessageListener.cpp:38-41 | after a message that initialises the client, any further `Initialize` message leaves the state unchanged |
| `Handshake.StepAllReleases` | source/InitMessageListener.cpp:76-84 | over any series of messages, the release count grows by at most one per message and never shrinks |
| `Handshake.StepAllInitialized` | source/InitMessageListener.cpp:38-41 | an initialised client is unchanged by any series of further messages |
| `Handshake.StepAllNoneAccepted` | source/InitMessageListener.cpp:43-78 | if no message is acceptable (too short or id out of range), the client stays uninitialised and keeps its id |
| `Handshake.StepAllFirstAccepted` | source/InitMessageListener.cpp:35-85 | the first acceptable message initialises the client with its id; neither earlier rejected messages nor later messages change that |
| `PongClient.InitMessageListener.constructor` | source/InitMessageListener.cpp:30-33 | the listener works on the given client |
| `PongClient.InitMessageListener.HandleMessage` | source/InitMessageListener.cpp:35-85 | the client's flag, id and release count become `Step` of the old ones; the listener changes no other client field and releases at most once |
| `PongClient.Client.constructor` | source/Client.cpp:34-63 | no server, user id 0, not initialised, no releases; players at (100,300) and (600,300); the client's listener works on this client |
| `PongClient.Client.Join` | source/Client.cpp:74-106 | the flag is cleared before connecting; a failed connect returns false and sets the server to null; otherwise the handshake state is `Step` of the cleared state when a message arrived; the result is true if and only if the connect succeeded and the client is initialised; on success the server is the given one and the id is 0 or 1; on a failed handshake the server is untouched |
| `PongClient.Decide` | source/Client.cpp:132-149 | quits if and only if Num2 was just released; sends if and only if it does not quit and W or S is down; a sent byte is 0 exactly when W is down (W over S) and is always 0 or 1 |
| `PongClient.Client.Run` | source/Client.cpp:115-152 | the commands sent are exactly `Sent` of the keyboard snapshots; the loop reports a quit if and only if some snapshot has Num2 just released |
| `PongClient.MoveMessage` | source/Client.cpp:138-146 | the command is named `Move` and holds one byte, which the server's `ReadByte` reads back as the direction written |
| `PongClient.Sent` | source/Client.cpp:115-152 | what the loop sends: at most one command per iteration, each a `Move` with a single byte of 0 or 1 |
| `PongClient.SentEndsAtQuit` | source/Client.cpp:132-135 | nothing after a Num2 release is sent, and the iteration that sees it sends nothing |
| `Protocol.InitializeRoundTrip` | source/InitMessageListener.cpp:50-84 | for the message `OnConnection` builds, an uninitialised client becomes initialised if and only if the id is 0 or 1, records exactly that id, keeps its old id otherwise, and is woken once |
| `Protocol.KeyMovesPaddle` | source/Client.cpp:136-149 | the `Move` sent for W raises the sender's paddle by its step once the server applies it, and the one for S lowers it |
| `Protocol.RunMovesPaddle` | source/Client.cpp:115-152 | when the server applies every command of a run, the paddle ends (W iterations - S-only iterations) steps up, counting only iterations before Num2 is released |

## Left out

- Networking library: `Start`, `Connect`, `Send`, `HookUserMessage`,
  `HookHostMessage`, recipient filters and message framing belong to a
  library that is not part of this model. The connect status, the message
  the listener receives and the sender id are inputs. `OnConnection` returns
  the message and its recipients instead of sending them.
- Entity manager: `LinkEntity`, `RegisterVariable` and `CreateEntityByName`
  are library calls. Entities are created with `new`, and the replicated
  variables' change tracking is not modelled. The client links the name
  "Player" to the `Ball` type (source/Client.cpp:52). Whether that matters
  depends on the library's layout of the two types, which is not shown, so
  the model does not reason about it.
- `Server::Host` and its thread: starting the server, the main thread, the
  10 ms sleep and the Num1 key that stops the server are threading, timing
  and I/O.
- `Server::OnDisconnection` has an empty body.
- `Server::~Server` stops the server, waits for its main thread to finish
  (threading, left out with `Host`) and deletes the ball; `Client::~Client`
  only deletes the ball.
- Concurrency: `PlayerMessageListener::HandleMessage` runs on the network
  callback thread and is modelled as a sequential method. `Join` waits on
  the semaphore with a timeout. This is modelled only as whether the
  listener ran before the check. Consuming a semaphore count in `Wait` is
  not modelled.
- `Client::Run`: window creation, event polling, presenting, the 10 ms sleep,
  keyboard polling and console printing are I/O. The keyboard state of each
  iteration is an input. `IsConnected()` is modelled as the end of the
  sequence of snapshots.
- `Ball.Rotation` is never written by the code modelled. The client's ball
  fields are never set there either.
- Floating point: coordinates are unbounded integers, so float rounding of
  very large positions is not captured.
- `ConnectStatus` collapses every status other than success into `Failed`.
- Wire.ReadByte: reading a byte from an empty `Move` payload is the
  library's behaviour and is not shown; the model reads 0 there, which moves
  the paddle up.
- `source/Main.cpp`: joining, falling back to hosting, rejoining and the
  cleanup are process orchestration with no logic of their own.
