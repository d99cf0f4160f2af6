/** `SignalingController`: the entry point for `/app/signaling/{roomId}`. The broker is
    an append-only outbox; `journal` additionally records, in order, each delivery and
    each removal from the room store that the controller performs. */
module Signaling {
  import opened Wrappers
  import opened Messages
  import opened SignalingProtocol
  import opened RoomDirectory

  class SignalingController {
    const directory: RoomService
    /** Everything handed to the broker so far, oldest first. */
    var outbox: seq<Delivery>
    ghost var journal: seq<Effect>
    /** The live room codes of the directory at the moment of the latest send. */
    ghost var liveAtSend: set<string>

    constructor (directory: RoomService)
      ensures this.directory == directory && outbox == [] && journal == [] && liveAtSend == {}
    {
      this.directory := directory;
      outbox := [];
      journal := [];
      liveAtSend := {};
    }

    /** `messagingTemplate.convertAndSendToUser(user, destination, payload)`. */
    method ConvertAndSendToUser(user: int, destination: string, payload: Payload)
      modifies this`outbox, this`journal, this`liveAtSend
      ensures outbox == old(outbox) + [Unicast(user, destination, payload)]
      ensures journal == old(journal) + [Sent(Unicast(user, destination, payload))]
      ensures liveAtSend == directory.rooms.Keys
    {
      liveAtSend := directory.rooms.Keys;
      outbox := outbox + [Unicast(user, destination, payload)];
      journal := journal + [Sent(Unicast(user, destination, payload))];
    }

    /** `messagingTemplate.convertAndSend(topic, payload)`. */
    method ConvertAndSend(topic: string, payload: Payload)
      modifies this`outbox, this`journal, this`liveAtSend
      ensures outbox == old(outbox) + [Broadcast(topic, payload)]
      ensures journal == old(journal) + [Sent(Broadcast(topic, payload))]
      ensures liveAtSend == directory.rooms.Keys
    {
      liveAtSend := directory.rooms.Keys;
      outbox := outbox + [Broadcast(topic, payload)];
      journal := journal + [Sent(Broadcast(topic, payload))];
    }

    /** `handleSignaling(roomId, message)`: the room code of the routing path must name a
        live room; the message is then dispatched on its type. The outbox, the journal and
        the room store change exactly as `Handle` says. */
    method HandleSignaling(roomId: string, message: SignalingMessage)
      requires directory.Valid()
      modifies this`outbox, this`journal, this`liveAtSend, directory
      ensures directory.Valid() && directory.members == old(directory.members)
      ensures old(directory.AllActive()) ==> directory.AllActive()
      ensures journal == old(journal) + Handle(old(directory.rooms.Keys), roomId, message)
      ensures outbox == old(outbox) + Delivered(Handle(old(directory.rooms.Keys), roomId, message))
      ensures directory.rooms == old(directory.rooms) - RemovedCodes(Handle(old(directory.rooms.Keys), roomId, message))
      ensures directory.rooms.Keys == Next(old(directory.rooms.Keys), roomId, message)
      ensures directory.nextId == old(directory.nextId)
      // A leave in a live room is broadcast while the room is still in the store, and the
      // room is gone afterwards.
      ensures roomId in old(directory.rooms) && message.kind == LeaveTag ==>
                roomId in liveAtSend && roomId !in directory.rooms
    {
      var found := directory.FindByRoomId(roomId);
      if found.Err? {
        // Sender only, on the error queue.
        ConvertAndSendToUser(message.fromId, ErrorQueue, Text(RoomNotFoundText + roomId));
        return;
      }
      match ParseType(message.kind)
      case Offer => HandleOffer(roomId, message);
      case Answer => HandleAnswer(roomId, message);
      case Connected => HandleConnected(roomId, message);
      case Disconnected => HandleDisconnected(roomId, message);
      case ConnectionFailed => HandleConnectionFailed(roomId, message);
      case Leave => HandleLeave(roomId, message);
      case Unknown(_) =>
    }

    /** `handleOffer`: dropped without notice unless both recipient and descriptor are set. */
    method HandleOffer(roomId: string, message: SignalingMessage)
      modifies this`outbox, this`journal, this`liveAtSend
      ensures message.toId.Some? && message.sdp.Some? ==>
                && outbox == old(outbox) + [Unicast(message.toId.value, SignalingQueue, Relay(message))]
                && journal == old(journal) + [Sent(Unicast(message.toId.value, SignalingQueue, Relay(message)))]
      ensures message.toId.None? || message.sdp.None? ==> outbox == old(outbox) && journal == old(journal)
    {
      if message.toId.None? || message.sdp.None? {
        return;
      }
      ConvertAndSendToUser(message.toId.value, SignalingQueue, Relay(message));
    }

    /** `handleAnswer`: the same rule as `handleOffer`. */
    method HandleAnswer(roomId: string, message: SignalingMessage)
      modifies this`outbox, this`journal, this`liveAtSend
      ensures message.toId.Some? && message.sdp.Some? ==>
                && outbox == old(outbox) + [Unicast(message.toId.value, SignalingQueue, Relay(message))]
                && journal == old(journal) + [Sent(Unicast(message.toId.value, SignalingQueue, Relay(message)))]
      ensures message.toId.None? || message.sdp.None? ==> outbox == old(outbox) && journal == old(journal)
    {
      if message.toId.None? || message.sdp.None? {
        return;
      }
      ConvertAndSendToUser(message.toId.value, SignalingQueue, Relay(message));
    }

    /** `handleConnected`: broadcast on the topic of the path's room code. */
    method HandleConnected(roomId: string, message: SignalingMessage)
      modifies this`outbox, this`journal, this`liveAtSend
      ensures outbox == old(outbox) + [Broadcast(RoomTopic(roomId), Relay(message))]
      ensures journal == old(journal) + [Sent(Broadcast(RoomTopic(roomId), Relay(message)))]
    {
      ConvertAndSend(TopicPrefix + roomId, Relay(message));
    }

    /** `handleDisconnected`: broadcast on the topic of the path's room code. */
    method HandleDisconnected(roomId: string, message: SignalingMessage)
      modifies this`outbox, this`journal, this`liveAtSend
      ensures outbox == old(outbox) + [Broadcast(RoomTopic(roomId), Relay(message))]
      ensures journal == old(journal) + [Sent(Broadcast(RoomTopic(roomId), Relay(message)))]
    {
      ConvertAndSend(TopicPrefix + roomId, Relay(message));
    }

    /** `handleConnectionFailed`: broadcast on the topic of the path's room code. */
    method HandleConnectionFailed(roomId: string, message: SignalingMessage)
      modifies this`outbox, this`journal, this`liveAtSend
      ensures outbox == old(outbox) + [Broadcast(RoomTopic(roomId), Relay(message))]
      ensures journal == old(journal) + [Sent(Broadcast(RoomTopic(roomId), Relay(message)))]
    {
      ConvertAndSend(TopicPrefix + roomId, Relay(message));
    }

    /** `handleLeave`: broadcast first, then remove the room; a NotFound from the removal
        (the room is already gone) is swallowed and leaves no trace in the outbox. */
    method HandleLeave(roomId: string, message: SignalingMessage)
      requires directory.Valid()
      modifies this`outbox, this`journal, this`liveAtSend, directory
      ensures directory.Valid() && directory.members == old(directory.members)
      ensures old(directory.AllActive()) ==> directory.AllActive()
      ensures outbox == old(outbox) + [Broadcast(RoomTopic(roomId), Relay(message))]
      ensures journal == old(journal) + [Sent(Broadcast(RoomTopic(roomId), Relay(message)))]
                         + (if roomId in old(directory.rooms) then [Removed(roomId)] else [])
      ensures directory.rooms == old(directory.rooms) - {roomId}
      ensures directory.nextId == old(directory.nextId)
      // The broadcast is sent while the store is still as it was on entry.
      ensures liveAtSend == old(directory.rooms.Keys)
    {
      ConvertAndSend(TopicPrefix + roomId, Relay(message));
      var removed := directory.Remove(roomId);
      if removed.Ok? {
        journal := journal + [Removed(roomId)];
      }
    }
  }
}
