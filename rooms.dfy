/** The room inventory: the eight default rooms seeded into an empty
    inventory, room patches, and the occupy/release walk that addBooking and
    checkOut run over a booking's room numbers (src/lib/storage.ts). */
module RoomInventory {
  import opened Records
  import opened Collections

  /** `Partial<Room>` as callers pass it to updateRoom, without the uuid. */
  datatype RoomPatch = RoomPatch(
    roomNumber: Option<string>,
    floor: Option<string>,
    roomType: Option<RoomType>,
    capacity: Option<int>,
    status: Option<RoomStatus>,
    currentGuestId: Option<Uuid>,
    currentGuestType: Option<GuestType>,
    pricePerNight: Option<int>,
    amenities: Option<seq<string>>
  )

  /** The patch that names no key. */
  const NoRoomChange := RoomPatch(None, None, None, None, None, None, None, None, None)

  /** `{ ...r, ...p }`: the uuid is kept, every key the patch names takes the
      patch's value and every other key keeps the room's. */
  function UpdatedRoom(r: Room, p: RoomPatch): (r': Room)
    ensures r'.id == r.id
    ensures p.status.Some? ==> r'.status == p.status.value
    ensures p.status.None? ==> r'.status == r.status
    ensures r'.roomNumber == OrElse(p.roomNumber, r.roomNumber) && r'.floor == OrElse(p.floor, r.floor)
    ensures r'.roomType == OrElse(p.roomType, r.roomType) && r'.capacity == OrElse(p.capacity, r.capacity)
    ensures r'.currentGuestId == Override(p.currentGuestId, r.currentGuestId)
    ensures r'.currentGuestType == Override(p.currentGuestType, r.currentGuestType)
    ensures r'.pricePerNight == OrElse(p.pricePerNight, r.pricePerNight)
    ensures r'.amenities == Override(p.amenities, r.amenities)
  {
    r.(
      roomNumber := OrElse(p.roomNumber, r.roomNumber),
      floor := OrElse(p.floor, r.floor),
      roomType := OrElse(p.roomType, r.roomType),
      capacity := OrElse(p.capacity, r.capacity),
      status := OrElse(p.status, r.status),
      currentGuestId := Override(p.currentGuestId, r.currentGuestId),
      currentGuestType := Override(p.currentGuestType, r.currentGuestType),
      pricePerNight := OrElse(p.pricePerNight, r.pricePerNight),
      amenities := Override(p.amenities, r.amenities))
  }

  /** An empty patch leaves the room as it was. */
  lemma EmptyPatchKeepsRoom(r: Room)
    ensures UpdatedRoom(r, NoRoomChange) == r
  {
  }

  /** Applying the same patch twice is applying it once. */
  lemma UpdateRoomIdempotent(r: Room, p: RoomPatch)
    ensures UpdatedRoom(UpdatedRoom(r, p), p) == UpdatedRoom(r, p)
  {
  }

  const SeedSize: nat := 8

  function SeedRoom(id: Uuid, number: string, floor: string, kind: RoomType, capacity: int, price: int): Room {
    Room(id, number, floor, kind, capacity, Available, None, None, price, None)
  }

  /** The inventory getRooms writes when it finds none: eight available
      rooms on three floors, numbered 101-104, 201-202, 301-302, taking the
      next eight uuids. */
  function DefaultRooms(firstId: Uuid): (rs: seq<Room>)
    ensures |rs| == SeedSize
    ensures forall k :: 0 <= k < |rs| ==>
      rs[k].id == firstId + k && rs[k].status == Available &&
      rs[k].currentGuestId.None? && rs[k].currentGuestType.None?
    ensures forall i, j :: 0 <= i < j < |rs| ==> rs[i].roomNumber != rs[j].roomNumber
  {
    [ SeedRoom(firstId,     "101", "1", Single, 1, 1000),
      SeedRoom(firstId + 1, "102", "1", Single, 1, 1000),
      SeedRoom(firstId + 2, "103", "1", Double, 2, 1500),
      SeedRoom(firstId + 3, "104", "1", Double, 2, 1500),
      SeedRoom(firstId + 4, "201", "2", Suite, 3, 2500),
      SeedRoom(firstId + 5, "202", "2", Suite, 3, 2500),
      SeedRoom(firstId + 6, "301", "3", Deluxe, 4, 3500),
      SeedRoom(firstId + 7, "302", "3", Deluxe, 4, 3500) ]
  }

  /** What getRooms returns (and stores): the inventory, or the defaults if
      it is empty; seeding never happens to a non-empty inventory. */
  function SeedIfEmpty(rooms: seq<Room>, firstId: Uuid): (rs: seq<Room>)
    ensures |rs| > 0
    ensures |rooms| > 0 ==> rs == rooms
    ensures |rooms| == 0 ==> rs == DefaultRooms(firstId)
  {
    if |rooms| == 0 then DefaultRooms(firstId) else rooms
  }

  /** How many uuids getRooms draws: eight when it seeds, none otherwise. */
  function SeedUuids(rooms: seq<Room>): nat {
    if |rooms| == 0 then SeedSize else 0
  }

  /** What a booking does to one of its rooms. */
  datatype RoomChange =
    | Occupy(guestId: Option<Uuid>, guestType: GuestType)  // addBooking
    | Release                                               // checkOut

  /** Occupying stamps the occupant; releasing makes the room available and
      clears the occupant, whatever the room's status was. */
  function ApplyChange(r: Room, c: RoomChange): (r': Room)
    ensures r'.id == r.id && r'.roomNumber == r.roomNumber
    ensures c.Occupy? ==>
      r'.status == Occupied && r'.currentGuestId == c.guestId && r'.currentGuestType == Some(c.guestType)
    ensures c.Release? ==>
      r'.status == Available && r'.currentGuestId.None? && r'.currentGuestType.None?
    ensures r' == r.(status := r'.status, currentGuestId := r'.currentGuestId,
                     currentGuestType := r'.currentGuestType)
  {
    match c
    case Occupy(g, t) => r.(status := Occupied, currentGuestId := g, currentGuestType := Some(t))
    case Release => r.(status := Available, currentGuestId := None, currentGuestType := None)
  }

  /** The later of two changes to a room is the one that shows. */
  lemma LaterChangeWins(r: Room, c1: RoomChange, c2: RoomChange)
    ensures ApplyChange(ApplyChange(r, c1), c2) == ApplyChange(r, c2)
  {
  }

  /** One turn of the forEach: change the first room with this number. */
  function ChangeFirst(rooms: seq<Room>, number: string, c: RoomChange): seq<Room> {
    match IndexOf(rooms, RoomNumberKey, number)
    case None => rooms
    case Some(i) => rooms[i := ApplyChange(rooms[i], c)]
  }

  /** The whole forEach over `numbers`, one number after another. */
  function ChangeListed(rooms: seq<Room>, numbers: seq<string>, c: RoomChange): (r: seq<Room>)
    ensures |r| == |rooms|
    ensures forall j :: 0 <= j < |r| ==>
      r[j].id == rooms[j].id && r[j].roomNumber == rooms[j].roomNumber
    decreases |numbers|
  {
    if |numbers| == 0 then rooms
    else ChangeFirst(ChangeListed(rooms, numbers[..|numbers| - 1], c), numbers[|numbers| - 1], c)
  }

  /** Room `j` is one the walk reaches: its number is listed and no earlier
      room has that number. */
  ghost predicate Listed(rooms: seq<Room>, numbers: seq<string>, j: int)
    requires 0 <= j < |rooms|
  {
    IsFirst(rooms, RoomNumberKey, j) && rooms[j].roomNumber in numbers
  }

  /** After the walk, every room it reaches carries the change and every
      other room is as it was. */
  lemma {:induction false} ChangeListedAt(rooms: seq<Room>, numbers: seq<string>, c: RoomChange, j: int)
    requires 0 <= j < |rooms|
    ensures ChangeListed(rooms, numbers, c)[j] ==
      if Listed(rooms, numbers, j) then ApplyChange(rooms[j], c) else rooms[j]
    decreases |numbers|
  {
    if |numbers| > 0 {
      var init, n := numbers[..|numbers| - 1], numbers[|numbers| - 1];
      assert numbers == init + [n];
      var prev := ChangeListed(rooms, init, c);
      ChangeListedAt(rooms, init, c, j);
      IndexOfSameKeys(prev, RoomNumberKey, rooms, RoomNumberKey, n);
      IndexOfFindsFirst(rooms, RoomNumberKey, j);
      match IndexOf(rooms, RoomNumberKey, n)
      case None =>
      case Some(i) =>
        if i == j {
          LaterChangeWins(rooms[j], c, c);
        }
    }
  }

  /** Two walks over the same numbers: the second one's change is what the
      reached rooms show (so a release after an allocation frees exactly the
      allocated rooms). */
  lemma ChangeListedTwice(rooms: seq<Room>, numbers: seq<string>, c1: RoomChange, c2: RoomChange)
    ensures ChangeListed(ChangeListed(rooms, numbers, c1), numbers, c2) == ChangeListed(rooms, numbers, c2)
  {
    var r1 := ChangeListed(rooms, numbers, c1);
    var a, b := ChangeListed(r1, numbers, c2), ChangeListed(rooms, numbers, c2);
    forall j | 0 <= j < |rooms|
      ensures a[j] == b[j]
    {
      ChangeListedAt(rooms, numbers, c1, j);
      ChangeListedAt(r1, numbers, c2, j);
      ChangeListedAt(rooms, numbers, c2, j);
      assert IsFirst(r1, RoomNumberKey, j) == IsFirst(rooms, RoomNumberKey, j);
      LaterChangeWins(rooms[j], c1, c2);
    }
  }
}
