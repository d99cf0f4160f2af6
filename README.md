# WebRTC signaling relay and room directory, in Dafny

A model of the core of a small WebRTC signaling server. Two participants share a short-lived
room. The server relays `offer`/`answer` session descriptions from one participant to the
other. It broadcasts connection-state events (`connected`, `disconnected`,
`connection-failed`) to the room topic. On `leave` it broadcasts once and then tears the room
down.

Modules, one per source file or component:

- `Wrappers` (`wrappers.dfy`): `Option` stands for nullable references. `Result` stands for the
  exceptions the source throws.
- `RoomCode` (`room_code.dfy`): the room-code generator `randomAlphanumeric(6).toUpperCase()`.
  The random draw is an input. The model writes out the upper-casing and proves that every
  code it produces has length 6 and uses only `[A-Z0-9]`.
- `Rooms` (`room.dfy`): the `Room` entity as a class. Its two factories are constructors.
  `isFull`, `addGuest` and `removeGuest` are members that read or assign its fields in place.
- `RoomDirectory` (`room_service.dfy`): `RoomService` as a class. It owns two stores. The room
  store is a `map` from public room code to `Room`. The member store is a `set` of member ids.
  `IllegalArgumentException` becomes `NotFound(message)` and `IllegalStateException` becomes
  `Conflict(message)`, with the source's message texts. `Valid()` is the store invariant:
  - each room is filed under its own code, and that code is well formed;
  - surrogate ids are assigned and pairwise distinct;
  - creator and guest are registered members.

  `AllActive()` states that no stored room has its active flag cleared. Every operation
  preserves it.
- `Messages` (`messages.dfy`): `SignalingMessage` and the message-type tag. The tag becomes a
  datatype with a catch-all `Unknown(tag)` variant. The broker's two delivery primitives
  become `Delivery` records.
- `SignalingProtocol` (`signaling_protocol.dfy`): the router's decision as pure functions.
  `Handle` gives the ordered effects of one inbound message: deliveries, and removals from the
  room store. `Next` gives the live room codes afterwards. `RunOutbox` and `RunRooms` handle
  a whole inbox of messages in turn. The lemmas here are about whole runs.
- `Signaling` (`signaling_controller.dfy`): `SignalingController` as a class. The broker is an
  append-only `outbox` field. A ghost `journal` records each delivery and each removal in the
  order they happen. A ghost `liveAtSend` keeps the directory's live room codes as they were at
  the latest send, which ties "broadcast, then remove" to the store's own state. `HandleSignaling` and its `Handle*` helpers are methods, and their
  contracts tie the new outbox, journal and store to `Handle` and `Next`.
- `Scenarios` (`scenarios.dfy`): client code that walks through the documented call flow
  using only the contracts above. It creates a paired room `AB12CD`, relays an offer to user 2
  only, broadcasts a leave, then sends a second leave, which gets the sender-only error. A
  second `remove` fails with NotFound. It also covers unknown-type and missing-room messages
  and joining an open room.

Behaviour of the code that the model keeps as written:

- `addGuest` checks the member last. A full room gives Conflict even when the member id is
  unknown.
- A room code is never checked for uniqueness.
- The broadcast topic is always built from the routing path's room code, never from the
  message's own `roomId` field.

## Model

| member | source | states |
|---|---|---|
| `RoomCode.ToUpperCase` | src/main/java/com/sign/sign/domain/Room.java:65-67 | upper-casing keeps the length and maps each character by itself: a-z go to A-Z, everything else is kept |
| `RoomCode.GenerateRoomId` | src/main/java/com/sign/sign/domain/Room.java:65-67 | for a draw of 6 ASCII alphanumerics, the code has length 6 over `[A-Z0-9]`; a draw that is already a valid code comes back unchanged; no uniqueness is promised |
| `Rooms.Room.Open` | src/main/java/com/sign/sign/domain/Room.java:34-41 | the open room has creator `member`, no guest, is active, is not full, has no surrogate id yet, and its code is the generated one |
| `Rooms.Room.Paired` | src/main/java/com/sign/sign/domain/Room.java:43-51 | the paired room has both creator and guest set, is active and full, and its code is the generated one |
| `Rooms.Room.IsFull` | src/main/java/com/sign/sign/domain/Room.java:53-55 | a room is full exactly when its guest is set |
| `Rooms.Room.AddGuest` | src/main/java/com/sign/sign/domain/Room.java:57-59 | the guest becomes `g` and the room is full; any earlier guest is overwritten without a check; its frame (`this`guest`) leaves creator, code, id and active flag unchanged |
| `Rooms.Room.RemoveGuest` | src/main/java/com/sign/sign/domain/Room.java:61-63 | the guest is cleared and the room is not full, whatever the earlier state, so a second call changes nothing; only `guest` may change |
| `RoomDirectory.RoomService.Save` | src/main/java/com/sign/sign/repository/RoomRepository.java:15-18 | the room gets the next surrogate id and is filed under its code; the store invariant is kept |
| `RoomDirectory.RoomService.CreateRoom` | src/main/java/com/sign/sign/service/RoomService.java:20-31 | unknown creator, or known creator and unknown guest: NotFound with the member message, store unchanged; otherwise exactly one fresh room is filed under the generated code, every other entry is unchanged, the room has creator `c`, guest `g`, is active and full, and its surrogate id is returned |
| `RoomDirectory.RoomService.Create` | src/main/java/com/sign/sign/service/RoomService.java:34-41 | unknown member: NotFound, store unchanged; otherwise one fresh open room with creator `m`, no guest, active and not full is added, all else unchanged, and its id is returned |
| `RoomDirectory.RoomService.FindByRoomId` | src/main/java/com/sign/sign/service/RoomService.java:44-47 | the stored room when the code is present, otherwise NotFound("방을 찾을 수 없습니다: " + code); changes nothing |
| `RoomDirectory.RoomService.FindById` | src/main/java/com/sign/sign/service/RoomService.java:49-52 | succeeds exactly when some stored room has that surrogate id, and returns a stored room with that id; otherwise NotFound with the id in decimal; changes nothing |
| `RoomDirectory.RoomService.AddGuest` | src/main/java/com/sign/sign/service/RoomService.java:55-70 | in this order: missing room is NotFound; full room is Conflict, even for an unknown member; inactive room is Conflict; unknown member is NotFound, and each failure leaves the room unchanged; on success the guest is set, the room is full, its other fields and every other room are unchanged, and its surrogate id is returned |
| `RoomDirectory.RoomService.Remove` | src/main/java/com/sign/sign/service/RoomService.java:73-77 | a missing code is NotFound and changes nothing; otherwise exactly that room is deleted and its id is returned; afterwards the code is absent, so a second call is NotFound |
| `Messages.ParseType` | src/main/java/com/sign/sign/controller/SignalingController.java:39-67 | classifying the type string is exhaustive and keeps the tag; it yields the catch-all exactly for strings other than the six known tags |
| `Messages.TypeNameRoundTrip` | src/main/java/com/sign/sign/controller/SignalingController.java:39-67 | the converse of the above: printing a well-formed message type and classifying the string again gives back the same type |
| `SignalingProtocol.Handle` | src/main/java/com/sign/sign/controller/SignalingController.java:30-79 | missing room: exactly one error unicast to the sender on `/queue/errors` and nothing else; offer/answer: one verbatim unicast to `toId` on `/queue/signaling` when `toId` and `sdp` are both present, otherwise nothing; connected/disconnected/connection-failed: one verbatim broadcast on `/topic/signaling/` + path code; leave: that broadcast, then removal of the room; unknown tag: nothing; at most one delivery, and it follows the addressing rules (a relayed offer/answer goes only to the `toId` named in it and carries an sdp, error notices are text on the error queue, broadcasts carry state events or leave on a room topic); only a leave to an existing room removes anything, and only that room |
| `SignalingProtocol.Next` | src/main/java/com/sign/sign/controller/SignalingController.java:173-189 | the live codes afterwards are the old ones minus exactly the codes that `Handle`'s effects remove, and never grow |
| `SignalingProtocol.RunDeliversAtMostOnePerMessage` | src/main/java/com/sign/sign/controller/SignalingController.java:39-78 | over any sequence of inbound messages, the outbox grows by no more than the number of messages |
| `SignalingProtocol.RepeatedMessageIsDeliveredAgain` | src/main/java/com/sign/sign/controller/SignalingController.java:39-67 | redelivery is not deduplicated: the same non-leave message sent twice to a live room yields its deliveries twice, in order |
| `SignalingProtocol.RunRemovesExactlyLeaveTargets` | src/main/java/com/sign/sign/controller/SignalingController.java:173-189 | after any run, the live codes are the initial ones minus exactly the codes that some `leave` was sent to; no other message removes a room |
| `SignalingProtocol.RunDeliveriesWellAddressed` | src/main/java/com/sign/sign/controller/SignalingController.java:85-121 | no run ever delivers a relayed offer/answer to anyone but the recipient named in it, and every delivery of a run follows the addressing rules |
| `SignalingProtocol.RemovedRoomIsTerminal` | src/main/java/com/sign/sign/controller/SignalingController.java:69-78 | once a code is absent, every later message to it gets exactly the sender-only error notice, one per message, and the store stays the same; nothing is relayed or broadcast |
| `SignalingProtocol.LeaveThenNotFound` | src/test/java/com/sign/sign/controller/SignalingControllerTest.java:112-133 | a leave to a live room followed by any message to the same code gives one broadcast of the leave, then the error notice to the second sender, and the room is gone |
| `Signaling.SignalingController.ConvertAndSendToUser` | src/main/java/com/sign/sign/controller/SignalingController.java:73-77 | appends exactly one unicast record to the outbox and the journal, and snapshots the live room codes at the moment of sending |
| `Signaling.SignalingController.ConvertAndSend` | src/main/java/com/sign/sign/controller/SignalingController.java:132-135 | appends exactly one broadcast record to the outbox and the journal, and snapshots the live room codes at the moment of sending |
| `Signaling.SignalingController.HandleSignaling` | src/main/java/com/sign/sign/controller/SignalingController.java:30-79 | the journal grows by exactly `Handle(live codes, roomId, message)` and the outbox by its deliveries; the store loses exactly the codes those effects remove; members and the id counter are unchanged; the store invariant and the all-active invariant are kept; a leave in a live room is broadcast while the room is still in the store, and the room is gone afterwards |
| `Signaling.SignalingController.HandleOffer` | src/main/java/com/sign/sign/controller/SignalingController.java:85-100 | with `toId` and `sdp` present, one unicast of the message verbatim to `toId` on `/queue/signaling`; otherwise outbox and journal unchanged, with no error sent |
| `Signaling.SignalingController.HandleAnswer` | src/main/java/com/sign/sign/controller/SignalingController.java:106-121 | the same rule as for offers |
| `Signaling.SignalingController.HandleConnected` | src/main/java/com/sign/sign/controller/SignalingController.java:127-136 | one verbatim broadcast on the topic of the path's room code |
| `Signaling.SignalingController.HandleDisconnected` | src/main/java/com/sign/sign/controller/SignalingController.java:142-151 | one verbatim broadcast on the topic of the path's room code |
| `Signaling.SignalingController.HandleConnectionFailed` | src/main/java/com/sign/sign/controller/SignalingController.java:157-166 | one verbatim broadcast on the topic of the path's room code |
| `Signaling.SignalingController.HandleLeave` | src/main/java/com/sign/sign/controller/SignalingController.java:173-189 | the broadcast comes first in the journal, then the removal; the room is deleted; the broadcast is sent while the store is still as it was on entry (the live-code snapshot equals the entry state); when the room was already gone, the NotFound is swallowed: no removal in the journal and no extra outbox entry; members and the id counter are unchanged |

## Left out

- Authentication (`JwtAuthenticationFilter`, `CustomUserPrincipal`) and the STOMP/SockJS broker configuration (`WebSocketConfig`): transport and security plumbing. The broker is modelled only as the outbox.
- JPA persistence: `RoomRepository` and `MemberRepository` are replaced by a `map` and a `set`. Transactions (`@Transactional`) are not modelled, and neither are timestamps from `BaseEntity`, which come from the wall clock.
- Member registration (`MemberService`, `MemberController`) and member names: the member store is the set of ids the directory is built with.
- `RoomController` and the request/response records: HTTP mapping only. `getRoomInfo` dereferences `getGuest()` without a null check (src/main/java/com/sign/sign/controller/RoomController.java:36), so an open room cannot be displayed; this is not modelled.
- The random draw of `RandomStringUtils` is an input that satisfies the library's contract (6 ASCII letters or digits). `toUpperCase` is modelled as ASCII upper-casing; a default locale with different casing rules (Turkish `i`) is not modelled.
- Room-code collisions: no uniqueness check is made, in the source or in the model. In the model a new room with a colliding code replaces the older entry in the map. The source would keep both rows and leave the lookup by code ambiguous.
- Null message fields that make the source throw `NullPointerException` (a null `type` in the switch, a null `fromId` in the error path) are excluded by the types: `kind` is a `string` and `fromId` is an `int`.
- User names: the source addresses unicasts by `toId.toString()` / `fromId.toString()`. The model addresses them by the integer id.
- In the source, an `IllegalArgumentException` thrown by the broker inside the `try` would also produce the room-not-found notice. Broker failures are not modelled.
- Concurrency: races between two `leave`s, or between a `leave` and an `offer`, and ordering across senders. The model is sequential. In it the removal inside `leave` always finds the room, because the room was checked just before. The swallowed NotFound is still modelled in `HandleLeave` for the case where the room is already gone.
- Surrogate ids are unbounded integers from a counter; 64-bit `Long` limits are not modelled.
- Logging calls are dropped.
- `RoomRepository.findByRoomId` (src/main/java/com/sign/sign/repository/RoomRepository.java:24-26) as written passes the room code to `em.find` against the numeric primary key. The model does not reproduce that lookup; it uses the lookup by code that every caller relies on (noted at `FindByRoomId`).
- Member references are modelled as non-null member ids. In the source, `Room.createRoom(creator, null)` and `room.addGuest(null)` are legal and leave the room not full (src/main/java/com/sign/sign/domain/Room.java:47, 58). `Paired` and `AddGuest` take an `int`, so that case is not modelled. `RoomService` never passes null, so no directory contract is affected.
