/** The `Room` entity: a 1:1 call room whose guest is assigned in place. */
module Rooms {
  import opened Wrappers
  import RoomCode

  class Room {
    /** Surrogate id; None until the room is saved to the store. */
    var id: Option<int>
    /** Public room code (the source's field `roomId`). */
    var roomId: string
    var creator: int
    var guest: Option<int>
    var isActive: bool

    /** `Room.createRoom(member)`: an open room with no guest yet. */
    constructor Open(raw: string, member: int)
      requires RoomCode.IsRandomAlphanumeric(raw)
      ensures roomId == RoomCode.GenerateRoomId(raw) && RoomCode.ValidRoomCode(roomId)
      ensures creator == member && guest == None && id == None
      ensures isActive && !IsFull()
    {
      id := None;
      roomId := RoomCode.GenerateRoomId(raw);
      creator := member;
      guest := None;
      isActive := true;
    }

    /** `Room.createRoom(creator, guest)`: a paired room, full from the start. */
    constructor Paired(raw: string, creator: int, guest: int)
      requires RoomCode.IsRandomAlphanumeric(raw)
      ensures roomId == RoomCode.GenerateRoomId(raw) && RoomCode.ValidRoomCode(roomId)
      ensures this.creator == creator && this.guest == Some(guest) && id == None
      ensures isActive && IsFull()
    {
      id := None;
      roomId := RoomCode.GenerateRoomId(raw);
      this.creator := creator;
      this.guest := Some(guest);
      isActive := true;
    }

    /** A room is full exactly when its guest is set. */
    function IsFull(): (full: bool)
      reads this
      ensures full <==> guest.Some?
    {
      guest.Some?
    }

    /** Sets the guest, overwriting any previous one; no fullness check here. */
    method AddGuest(g: int)
      modifies this`guest
      ensures guest == Some(g) && IsFull()
    {
      guest := Some(g);
    }

    /** Clears the guest; calling it again leaves the room as it is. */
    method RemoveGuest()
      modifies this`guest
      ensures guest == None && !IsFull()
    {
      guest := None;
    }
  }
}
