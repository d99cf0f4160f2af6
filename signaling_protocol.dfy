/** The signaling router's decision, as a function of the live room codes, the routing
    path's room code and the message: the ordered effects one inbound message causes
    (deliveries handed to the broker and removals from the room store). */
module SignalingProtocol {
  import opened Wrappers
  import opened Messages

  const SignalingQueue: string := "/queue/signaling"
  const ErrorQueue: string := "/queue/errors"
  const TopicPrefix: string := "/topic/signaling/"
  /** The router's "room not found" notice, followed by the room code. */
  const RoomNotFoundText: string := "방을 찾을 수 없습니다: "

  /** The room-scoped broadcast topic, built from the routing path's room code. */
  function RoomTopic(roomId: string): string {
    TopicPrefix + roomId
  }

  datatype Effect = Sent(delivery: Delivery) | Removed(roomId: string)

  /** The error notice sent to the sender only, when the room does not exist. */
  function RoomNotFound(roomId: string, m: SignalingMessage): Delivery {
    Unicast(m.fromId, ErrorQueue, Text(RoomNotFoundText + roomId))
  }

  predicate IsBroadcastTag(s: string) {
    s == ConnectedTag || s == DisconnectedTag || s == ConnectionFailedTag
  }

  /** The `switch` over the message type inside an existing room. */
  function Dispatch(roomId: string, m: SignalingMessage): seq<Effect> {
    match ParseType(m.kind)
    case Offer | Answer =>
      if m.toId.Some? && m.sdp.Some? then [Sent(Unicast(m.toId.value, SignalingQueue, Relay(m)))] else []
    case Connected | Disconnected | ConnectionFailed =>
      [Sent(Broadcast(RoomTopic(roomId), Relay(m)))]
    case Leave =>
      [Sent(Broadcast(RoomTopic(roomId), Relay(m))), Removed(roomId)]
    case Unknown(_) =>
      []
  }

  /** The deliveries among some effects, in order. */
  function Delivered(es: seq<Effect>): seq<Delivery> {
    if es == [] then []
    else if es[0].Sent? then [es[0].delivery] + Delivered(es[1..])
    else Delivered(es[1..])
  }

  /** The room codes some effects remove. */
  function RemovedCodes(es: seq<Effect>): set<string> {
    set e | e in es && e.Removed? :: e.roomId
  }

  /** A delivery respects the router's addressing rules: a relayed offer/answer goes only
      to the recipient it names and carries a descriptor; error notices are text on the
      error queue; broadcasts carry connection-state events or leave on a room topic. */
  predicate WellAddressed(d: Delivery) {
    match d
    case Unicast(u, dest, p) =>
      || (&& dest == SignalingQueue && p.Relay?
          && (p.message.kind == OfferTag || p.message.kind == AnswerTag)
          && p.message.toId == Some(u) && p.message.sdp.Some?)
      || (dest == ErrorQueue && p.Text? && RoomNotFoundText <= p.text)
    case Broadcast(t, p) =>
      && TopicPrefix <= t && p.Relay?
      && (IsBroadcastTag(p.message.kind) || p.message.kind == LeaveTag)
  }

  /** `handleSignaling`: the effects of one inbound message, stated per type tag. */
  function Handle(rooms: set<string>, roomId: string, m: SignalingMessage): (es: seq<Effect>)
    // Missing room: exactly one error notice to the sender, nothing relayed, nothing removed.
    ensures roomId !in rooms ==> es == [Sent(RoomNotFound(roomId, m))]
    // offer/answer: relayed verbatim to the recipient only when recipient and descriptor are present.
    ensures roomId in rooms && (m.kind == OfferTag || m.kind == AnswerTag) ==>
              es == if m.toId.Some? && m.sdp.Some?
                    then [Sent(Unicast(m.toId.value, SignalingQueue, Relay(m)))]
                    else []
    // Connection-state events: one broadcast on the path's room topic, verbatim.
    ensures roomId in rooms && IsBroadcastTag(m.kind) ==>
              es == [Sent(Broadcast(RoomTopic(roomId), Relay(m)))]
    // leave: the broadcast first, then the removal of the room.
    ensures roomId in rooms && m.kind == LeaveTag ==>
              es == [Sent(Broadcast(RoomTopic(roomId), Relay(m))), Removed(roomId)]
    // Unrecognised tags: nothing at all.
    ensures roomId in rooms && !IsKnownTag(m.kind) ==> es == []
    // At most one delivery per inbound message, and it follows the addressing rules.
    ensures |Delivered(es)| <= 1
    ensures forall d | d in Delivered(es) :: WellAddressed(d)
    // Only a leave in an existing room removes anything, and only that room.
    ensures RemovedCodes(es) == if roomId in rooms && m.kind == LeaveTag then {roomId} else {}
  {
    if roomId !in rooms then [Sent(RoomNotFound(roomId, m))]
    else
      var es := Dispatch(roomId, m);
      assert m.kind == LeaveTag ==>
        es[1..] == [Removed(roomId)] && Delivered(es[1..]) == Delivered([]) == [];
      es
  }

  /** The live room codes after one inbound message. */
  function Next(rooms: set<string>, roomId: string, m: SignalingMessage): (r: set<string>)
    ensures r == rooms - RemovedCodes(Handle(rooms, roomId, m))
    ensures r <= rooms
  {
    if roomId in rooms && m.kind == LeaveTag then rooms - {roomId} else rooms
  }

  /** One inbound message together with the room code of its routing path. */
  datatype Inbound = Inbound(roomId: string, message: SignalingMessage)

  /** The broker's deliveries for a sequence of inbound messages handled one after another. */
  function RunOutbox(rooms: set<string>, inbox: seq<Inbound>): seq<Delivery>
    decreases |inbox|
  {
    if inbox == [] then []
    else
      Delivered(Handle(rooms, inbox[0].roomId, inbox[0].message))
      + RunOutbox(Next(rooms, inbox[0].roomId, inbox[0].message), inbox[1..])
  }

  /** The live room codes after a sequence of inbound messages. */
  function RunRooms(rooms: set<string>, inbox: seq<Inbound>): set<string>
    decreases |inbox|
  {
    if inbox == [] then rooms
    else RunRooms(Next(rooms, inbox[0].roomId, inbox[0].message), inbox[1..])
  }

  /** The room codes that some `leave` in the inbox is addressed to. */
  function LeaveTargets(inbox: seq<Inbound>): set<string> {
    set i | 0 <= i < |inbox| && inbox[i].message.kind == LeaveTag :: inbox[i].roomId
  }

  /** Each inbound message causes at most one delivery, so a run never delivers more
      messages than it received (duplicates in the inbox are delivered again). */
  lemma {:induction false} RunDeliversAtMostOnePerMessage(rooms: set<string>, inbox: seq<Inbound>)
    ensures |RunOutbox(rooms, inbox)| <= |inbox|
    decreases |inbox|
  {
    if inbox != [] {
      RunDeliversAtMostOnePerMessage(Next(rooms, inbox[0].roomId, inbox[0].message), inbox[1..]);
    }
  }

  /** Redelivery is not deduplicated: the same non-leave message sent twice to a live room
      is handled twice, and its deliveries appear twice in the outbox. */
  lemma RepeatedMessageIsDeliveredAgain(rooms: set<string>, code: string, m: SignalingMessage)
    requires code in rooms && m.kind != LeaveTag
    ensures RunOutbox(rooms, [Inbound(code, m), Inbound(code, m)])
            == Delivered(Handle(rooms, code, m)) + Delivered(Handle(rooms, code, m))
  {
    var inbox := [Inbound(code, m), Inbound(code, m)];
    assert inbox[1..] == [Inbound(code, m)];
    assert inbox[1..][1..] == [];
    assert Next(rooms, code, m) == rooms;
    assert RunOutbox(rooms, inbox[1..]) == Delivered(Handle(rooms, code, m)) + RunOutbox(rooms, []);
  }

  /** The only way a room leaves the store is a `leave` addressed to it: after any run the
      live codes are the initial ones minus exactly the codes some leave was sent to. */
  lemma {:induction false} RunRemovesExactlyLeaveTargets(rooms: set<string>, inbox: seq<Inbound>)
    ensures RunRooms(rooms, inbox) == rooms - LeaveTargets(inbox)
    decreases |inbox|
  {
    if inbox == [] {
      assert LeaveTargets(inbox) == {};
    } else {
      var head, tail := inbox[0], inbox[1..];
      RunRemovesExactlyLeaveTargets(Next(rooms, head.roomId, head.message), tail);
      var own := if head.message.kind == LeaveTag then {head.roomId} else {};
      assert LeaveTargets(inbox) == own + LeaveTargets(tail) by {
        forall c | c in LeaveTargets(inbox) ensures c in own + LeaveTargets(tail) {
          var i :| 0 <= i < |inbox| && inbox[i].message.kind == LeaveTag && inbox[i].roomId == c;
          if i > 0 {
            assert tail[i - 1] == inbox[i];
          }
        }
        forall c | c in LeaveTargets(tail) ensures c in LeaveTargets(inbox) {
          var i :| 0 <= i < |tail| && tail[i].message.kind == LeaveTag && tail[i].roomId == c;
          assert inbox[i + 1] == tail[i];
        }
      }
    }
  }

  /** No run ever delivers a message that breaks the addressing rules: in particular a
      relayed offer or answer reaches only the recipient named in it. */
  lemma {:induction false} RunDeliveriesWellAddressed(rooms: set<string>, inbox: seq<Inbound>)
    ensures forall d | d in RunOutbox(rooms, inbox) :: WellAddressed(d)
    decreases |inbox|
  {
    if inbox != [] {
      RunDeliveriesWellAddressed(Next(rooms, inbox[0].roomId, inbox[0].message), inbox[1..]);
    }
  }

  /** A removed (or never created) room stays gone: every later message to its code gets
      exactly the sender-only error notice, and nothing is relayed or broadcast. */
  lemma {:induction false} RemovedRoomIsTerminal(rooms: set<string>, code: string, inbox: seq<Inbound>)
    requires code !in rooms
    requires forall i :: 0 <= i < |inbox| ==> inbox[i].roomId == code
    ensures RunRooms(rooms, inbox) == rooms
    ensures |RunOutbox(rooms, inbox)| == |inbox|
    ensures forall i :: 0 <= i < |inbox| ==> RunOutbox(rooms, inbox)[i] == RoomNotFound(code, inbox[i].message)
    decreases |inbox|
  {
    if inbox != [] {
      var tail := inbox[1..];
      assert Next(rooms, code, inbox[0].message) == rooms;
      RemovedRoomIsTerminal(rooms, code, tail);
      var out := RunOutbox(rooms, inbox);
      assert out == [RoomNotFound(code, inbox[0].message)] + RunOutbox(rooms, tail);
      forall i | 0 <= i < |inbox| ensures out[i] == RoomNotFound(code, inbox[i].message) {
        if i > 0 {
          assert inbox[i] == tail[i - 1];
        }
      }
    }
  }

  /** A `leave` is broadcast once; the next message to the same code, whatever its type,
      is answered with the sender-only error notice instead of a second broadcast. */
  lemma LeaveThenNotFound(rooms: set<string>, code: string, leave: SignalingMessage, later: SignalingMessage)
    requires code in rooms && leave.kind == LeaveTag
    ensures RunOutbox(rooms, [Inbound(code, leave), Inbound(code, later)])
            == [Broadcast(RoomTopic(code), Relay(leave)), RoomNotFound(code, later)]
    ensures RunRooms(rooms, [Inbound(code, leave), Inbound(code, later)]) == rooms - {code}
  {
    var inbox := [Inbound(code, leave), Inbound(code, later)];
    var after := Next(rooms, code, leave);
    assert after == rooms - {code};
    assert inbox[1..] == [Inbound(code, later)];
    RemovedRoomIsTerminal(after, code, inbox[1..]);
    assert Delivered(Handle(rooms, code, leave)) == [Broadcast(RoomTopic(code), Relay(leave))];
  }
}
