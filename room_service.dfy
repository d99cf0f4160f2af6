/** `RoomService`: the room directory over a keyed room store and a member store.
    `IllegalArgumentException` becomes `NotFound`, `IllegalStateException` becomes `Conflict`. */
module RoomDirectory {
  import opened Wrappers
  import opened Rooms
  import RoomCode

  datatype Error = NotFound(message: string) | Conflict(message: string)

  const MemberNotFoundMessage: string := "사용자를 찾을 수 없습니다"
  const RoomNotFoundPrefix: string := "방을 찾을 수 없습니다: "
  const RoomFullMessage: string := "방이 가득 찼습니다"
  const RoomInactiveMessage: string := "비활성화된 방입니다"

  function Digit(d: nat): char
    requires d < 10
  {
    "0123456789"[d]
  }

  function NatString(n: nat): string
    decreases n
  {
    if n < 10 then [Digit(n)] else NatString(n / 10) + [Digit(n % 10)]
  }

  /** `Long.toString`, used in the by-id not-found message. */
  function DecimalString(n: int): string {
    if n < 0 then "-" + NatString(-n) else NatString(n)
  }

  class RoomService {
    /** The room store, keyed by public room code. */
    var rooms: map<string, Room>
    /** Ids of the registered members. */
    var members: set<int>
    /** Next surrogate id handed out by the store. */
    var nextId: int

    /** Each stored room is filed under its own code, which is a well-formed room code;
        it has been given a surrogate id
        distinct from every other room's, and refers only to registered members. */
    ghost predicate Valid()
      reads this, rooms.Values
    {
      && (forall c | c in rooms ::
            && rooms[c].roomId == c && RoomCode.ValidRoomCode(c)
            && rooms[c].id.Some? && rooms[c].id.value < nextId
            && rooms[c].creator in members
            && (rooms[c].guest.Some? ==> rooms[c].guest.value in members))
      && (forall c1, c2 | c1 in rooms && c2 in rooms && c1 != c2 :: rooms[c1].id != rooms[c2].id)
    }

    /** Every stored room has its active flag set: nothing in the model clears it. */
    ghost predicate AllActive()
      reads this, rooms.Values
    {
      forall c | c in rooms :: rooms[c].isActive
    }

    constructor (members: set<int>)
      ensures Valid() && AllActive()
      ensures rooms == map[] && this.members == members && nextId == 1
    {
      rooms := map[];
      this.members := members;
      nextId := 1;
    }

    /** `roomRepository.save`: assigns the next surrogate id and files the room under its code. */
    method Save(room: Room)
      requires Valid()
      requires room.id == None && room !in rooms.Values && RoomCode.ValidRoomCode(room.roomId)
      requires room.creator in members && (room.guest.Some? ==> room.guest.value in members)
      modifies this, room`id
      ensures Valid()
      ensures room.id == Some(old(nextId)) && nextId == old(nextId) + 1
      ensures rooms == old(rooms)[room.roomId := room] && members == old(members)
      ensures old(AllActive()) && room.isActive ==> AllActive()
    {
      room.id := Some(nextId);
      rooms := rooms[room.roomId := room];
      nextId := nextId + 1;
    }

    /** `createRoom(creatorId, guestId)`: a paired room. The creator is looked up first. */
    method CreateRoom(creatorId: int, guestId: int, raw: string) returns (res: Result<int, Error>)
      requires Valid() && RoomCode.IsRandomAlphanumeric(raw)
      modifies this
      ensures Valid() && members == old(members)
      ensures old(AllActive()) ==> AllActive()
      ensures creatorId !in members ==>
                res == Err(NotFound(MemberNotFoundMessage)) && rooms == old(rooms) && nextId == old(nextId)
      ensures creatorId in members && guestId !in members ==>
                res == Err(NotFound(MemberNotFoundMessage)) && rooms == old(rooms) && nextId == old(nextId)
      ensures creatorId in members && guestId in members ==>
                var code := RoomCode.GenerateRoomId(raw);
                && res == Ok(old(nextId))
                && code in rooms && fresh(rooms[code])
                && rooms == old(rooms)[code := rooms[code]]
                && rooms[code].creator == creatorId && rooms[code].guest == Some(guestId)
                && rooms[code].isActive && rooms[code].IsFull()
                && rooms[code].id == Some(res.value)
    {
      if creatorId !in members {
        return Err(NotFound(MemberNotFoundMessage));
      }
      if guestId !in members {
        return Err(NotFound(MemberNotFoundMessage));
      }
      var room := new Room.Paired(raw, creatorId, guestId);
      Save(room);
      return Ok(room.id.value);
    }

    /** `create(memberId)`: an open room waiting for a guest. */
    method Create(memberId: int, raw: string) returns (res: Result<int, Error>)
      requires Valid() && RoomCode.IsRandomAlphanumeric(raw)
      modifies this
      ensures Valid() && members == old(members)
      ensures old(AllActive()) ==> AllActive()
      ensures memberId !in members ==>
                res == Err(NotFound(MemberNotFoundMessage)) && rooms == old(rooms) && nextId == old(nextId)
      ensures memberId in members ==>
                var code := RoomCode.GenerateRoomId(raw);
                && res == Ok(old(nextId))
                && code in rooms && fresh(rooms[code])
                && rooms == old(rooms)[code := rooms[code]]
                && rooms[code].creator == memberId && rooms[code].guest == None
                && rooms[code].isActive && !rooms[code].IsFull()
                && rooms[code].id == Some(res.value)
    {
      if memberId !in members {
        return Err(NotFound(MemberNotFoundMessage));
      }
      var room := new Room.Open(raw, memberId);
      Save(room);
      return Ok(room.id.value);
    }

    /** `findByRoomId`: exact lookup by public code.
        The repository as written passes the code to `em.find` against the numeric primary
        key; this is the lookup by code that the callers rely on. */
    method FindByRoomId(code: string) returns (res: Result<Room, Error>)
      ensures code in rooms ==> res == Ok(rooms[code])
      ensures code !in rooms ==> res == Err(NotFound(RoomNotFoundPrefix + code))
    {
      if code in rooms {
        return Ok(rooms[code]);
      }
      return Err(NotFound(RoomNotFoundPrefix + code));
    }

    /** `findById`: lookup by surrogate id. */
    method FindById(id: int) returns (res: Result<Room, Error>)
      requires Valid()
      ensures res.Ok? <==> exists c :: c in rooms && rooms[c].id == Some(id)
      ensures res.Ok? ==> res.value.id == Some(id) && res.value in rooms.Values
      ensures res.Err? ==> res.error == NotFound(RoomNotFoundPrefix + DecimalString(id))
    {
      if c :| c in rooms && rooms[c].id == Some(id) {
        return Ok(rooms[c]);
      }
      return Err(NotFound(RoomNotFoundPrefix + DecimalString(id)));
    }

    /** `addGuest(roomId, memberId)`. Checks, in order: room exists, room not full,
        room active, member exists. */
    method AddGuest(code: string, memberId: int) returns (res: Result<int, Error>)
      requires Valid()
      modifies if code in rooms then {rooms[code]} else {}
      ensures Valid() && AllActive() == old(AllActive())
      ensures code !in rooms ==> res == Err(NotFound(RoomNotFoundPrefix + code))
      ensures code in rooms && old(rooms[code].IsFull()) ==>
                res == Err(Conflict(RoomFullMessage)) && unchanged(rooms[code])
      ensures code in rooms && !old(rooms[code].IsFull()) && !old(rooms[code].isActive) ==>
                res == Err(Conflict(RoomInactiveMessage)) && unchanged(rooms[code])
      ensures code in rooms && !old(rooms[code].IsFull()) && old(rooms[code].isActive) && memberId !in members ==>
                res == Err(NotFound(MemberNotFoundMessage)) && unchanged(rooms[code])
      ensures code in rooms && !old(rooms[code].IsFull()) && old(rooms[code].isActive) && memberId in members ==>
                && res == Ok(rooms[code].id.value)
                && rooms[code].guest == Some(memberId) && rooms[code].IsFull()
                && rooms[code].creator == old(rooms[code].creator)
                && rooms[code].roomId == old(rooms[code].roomId)
                && rooms[code].id == old(rooms[code].id)
                && rooms[code].isActive == old(rooms[code].isActive)
    {
      var found := FindByRoomId(code);
      if found.Err? {
        return Err(found.error);
      }
      var room := found.value;
      if room.IsFull() {
        return Err(Conflict(RoomFullMessage));
      }
      if !room.isActive {
        return Err(Conflict(RoomInactiveMessage));
      }
      if memberId !in members {
        return Err(NotFound(MemberNotFoundMessage));
      }
      room.AddGuest(memberId);
      return Ok(room.id.value);
    }

    /** `remove(roomId)`: deletes the room carrying that code and returns its surrogate id. */
    method Remove(code: string) returns (res: Result<int, Error>)
      requires Valid()
      modifies this
      ensures Valid() && members == old(members) && nextId == old(nextId)
      ensures old(AllActive()) ==> AllActive()
      ensures rooms == old(rooms) - {code} && code !in rooms
      ensures code !in old(rooms) ==> res == Err(NotFound(RoomNotFoundPrefix + code))
      ensures code in old(rooms) ==> res == Ok(old(rooms[code].id.value))
    {
      var found := FindByRoomId(code);
      if found.Err? {
        return Err(found.error);
      }
      var room := found.value;
      rooms := rooms - {code};
      return Ok(room.id.value);
    }
  }
}
