/** Client code that uses only the contracts above: the call flow of a paired room,
    from creation through an offer to a leave and a message after the leave. */
module Scenarios {
  import opened Wrappers
  import opened Messages
  import opened SignalingProtocol
  import opened RoomDirectory
  import opened Signaling

  /** Members 1 and 2 open a paired room; its code is the upper-cased draw. */
  method PairedRoom() returns (directory: RoomService)
    ensures fresh(directory) && directory.Valid() && "AB12CD" in directory.rooms
  {
    directory := new RoomService({1, 2});
    var created := directory.CreateRoom(1, 2, "AB12CD");
    assert created == Ok(1);
    assert directory.rooms["AB12CD"].IsFull() && directory.rooms["AB12CD"].creator == 1;
  }

  /** An offer reaches only its recipient; a leave is broadcast and removes the room;
      a second leave gets the sender-only error notice; a second removal fails. */
  method OfferThenLeave(controller: SignalingController)
    requires controller.directory.Valid() && "AB12CD" in controller.directory.rooms
    requires controller.outbox == []
    modifies controller, controller.directory
  {
    var offer := SignalingMessage(OfferTag, "AB12CD", 1, Some(2), Some("v=0"));
    controller.HandleSignaling("AB12CD", offer);
    assert controller.outbox == [Unicast(2, SignalingQueue, Relay(offer))];

    var leave := SignalingMessage(LeaveTag, "AB12CD", 1, None, None);
    controller.HandleSignaling("AB12CD", leave);
    assert controller.outbox[1] == Broadcast("/topic/signaling/AB12CD", Relay(leave));
    assert "AB12CD" !in controller.directory.rooms;

    var again := SignalingMessage(LeaveTag, "AB12CD", 2, None, None);
    controller.HandleSignaling("AB12CD", again);
    assert controller.outbox[2] == Unicast(2, ErrorQueue, Text(RoomNotFoundText + "AB12CD"));
    assert |controller.outbox| == 3;

    var second := controller.directory.Remove("AB12CD");
    assert second == Err(NotFound(RoomNotFoundPrefix + "AB12CD"));
  }

  /** Unrecognised types are dropped; a message to a missing room is answered with an
      error notice to its sender only. */
  method StrayMessages(controller: SignalingController)
    requires controller.directory.Valid() && "AB12CD" in controller.directory.rooms
    requires "INVALID" !in controller.directory.rooms
    requires controller.outbox == []
    modifies controller, controller.directory
  {
    var stray := SignalingMessage("unknown-type", "AB12CD", 1, Some(2), None);
    controller.HandleSignaling("AB12CD", stray);
    assert controller.outbox == [];

    var bare := SignalingMessage(OfferTag, "AB12CD", 1, Some(2), None);
    controller.HandleSignaling("AB12CD", bare);
    assert controller.outbox == [];

    var lost := SignalingMessage(OfferTag, "INVALID", 1, Some(2), Some("v=0"));
    controller.HandleSignaling("INVALID", lost);
    assert controller.outbox == [Unicast(1, ErrorQueue, Text(RoomNotFoundText + "INVALID"))];
  }

  /** An open room accepts one registered guest; afterwards it is full. */
  method OpenRoomJoin()
  {
    var directory := new RoomService({1, 2});
    var open := directory.Create(1, "ZZ99ZZ");
    assert open == Ok(1) && !directory.rooms["ZZ99ZZ"].IsFull();
    var stranger := directory.AddGuest("ZZ99ZZ", 7);
    assert stranger == Err(NotFound(MemberNotFoundMessage));
    var joined := directory.AddGuest("ZZ99ZZ", 2);
    assert joined == Ok(1) && directory.rooms["ZZ99ZZ"].guest == Some(2);
    var full := directory.AddGuest("ZZ99ZZ", 7);
    assert full == Err(Conflict(RoomFullMessage));
  }

  method CallFlow()
  {
    var directory := PairedRoom();
    var controller := new SignalingController(directory);
    OfferThenLeave(controller);
  }
}
