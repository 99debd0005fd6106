/** The store of src/lib/storage.ts: the seven persisted collections and the
    two counters, as the fields of one object, with every operation of the
    module as a method that changes them. */
module Storage {
  import opened Records
  import opened Collections
  import opened Text
  import opened DonorLedger
  import opened RoomInventory
  import opened BookingEngine
  import opened PaymentLedger
  import opened BillGenerator
  import opened Notifications

  /** The value both counters read as before they were ever saved. */
  const CounterStart: nat := 1000

  /** The rooms after a forEach over `numbers` that first loads the inventory
      through getRooms on every turn: with no numbers nothing is loaded; with
      at least one, an empty inventory is seeded from `nextId` before the
      first change. */
  function RoomsAfterWalk(rooms: seq<Room>, nextId: Uuid, numbers: seq<string>, c: RoomChange): (r: seq<Room>)
    ensures |numbers| == 0 ==> r == rooms
    ensures |numbers| > 0 && |rooms| > 0 ==>
      |r| == |rooms| && forall j :: 0 <= j < |r| ==> r[j].id == rooms[j].id
    ensures |numbers| > 0 && |rooms| == 0 ==>
      |r| == SeedSize && forall j :: 0 <= j < |r| ==> r[j].id == nextId + j
  {
    if |numbers| == 0 then rooms else ChangeListed(SeedIfEmpty(rooms, nextId), numbers, c)
  }

  /** The uuid counter after that walk. */
  function UuidsAfterWalk(rooms: seq<Room>, nextId: Uuid, numbers: seq<string>): nat {
    if |numbers| == 0 then nextId else nextId + SeedUuids(rooms)
  }

  class Store {
    var donors: seq<Donor>
    var guests: seq<Guest>
    var rooms: seq<Room>
    var payments: seq<Payment>
    var bookings: seq<Visit>
    var bills: seq<Bill>
    var notifications: seq<Notification>
    /** The last number handed out by generateDonorId. */
    var donorIdCounter: nat
    /** The last number handed out by generateBillNumber. */
    var billCounter: nat
    /** The next uuid uuidv4 hands out. */
    var nextUuid: Uuid

    /** Every record of the seven collections carries a uuid that was already
        drawn, so a newly drawn one is not the uuid of any of them. The
        uuids of installments inside a payment are the caller's as
        addPayment received them, and are not covered. */
    ghost predicate Valid()
      reads this
    {
      (forall i :: 0 <= i < |donors| ==> donors[i].id < nextUuid) &&
      (forall i :: 0 <= i < |guests| ==> guests[i].id < nextUuid) &&
      (forall i :: 0 <= i < |rooms| ==> rooms[i].id < nextUuid) &&
      (forall i :: 0 <= i < |payments| ==> payments[i].id < nextUuid) &&
      (forall i :: 0 <= i < |bookings| ==> bookings[i].id < nextUuid) &&
      (forall i :: 0 <= i < |bills| ==> bills[i].id < nextUuid) &&
      (forall i :: 0 <= i < |notifications| ==> notifications[i].id < nextUuid)
    }

    /** An empty browser store: no collections saved, both counters unset. */
    constructor ()
      ensures Valid()
      ensures donors == [] && guests == [] && rooms == [] && payments == []
      ensures bookings == [] && bills == [] && notifications == []
      ensures donorIdCounter == CounterStart && billCounter == CounterStart
    {
      donors, guests, rooms, payments := [], [], [], [];
      bookings, bills, notifications := [], [], [];
      donorIdCounter, billCounter := CounterStart, CounterStart;
      nextUuid := 0;
    }

    /** uuidv4. */
    method DrawUuid() returns (u: Uuid)
      modifies this`nextUuid
      ensures u == old(nextUuid) && nextUuid == u + 1
    {
      u := nextUuid;
      nextUuid := nextUuid + 1;
    }

    // ============ donors ============

    /** generateDonorId: the counter goes up by one and names the donor. */
    method GenerateDonorId() returns (code: string)
      modifies this`donorIdCounter
      ensures donorIdCounter == old(donorIdCounter) + 1
      ensures code == DonorCode(donorIdCounter)
    {
      donorIdCounter := donorIdCounter + 1;
      code := DonorCode(donorIdCounter);
    }

    /** isDonorIdUnique. */
    method IsDonorIdUnique(donorId: string, excludeId: Option<Uuid>) returns (b: bool)
      ensures b <==> forall j :: 0 <= j < |donors| ==>
        !(donors[j].donorId == donorId && Some(donors[j].id) != excludeId)
    {
      b := DonorIdUnique(donors, donorId, excludeId);
    }

    /** addDonor: the donor is appended under a fresh uuid, and a welcome
        notification under the next uuid is put in front. */
    method AddDonor(input: Donor, clock: Clock) returns (d: Donor)
      requires Valid()
      modifies this`donors, this`notifications, this`nextUuid
      ensures Valid()
      ensures d == NewDonor(input, old(nextUuid), clock.instant)
      ensures forall j :: 0 <= j < |old(donors)| ==> old(donors)[j].id != d.id
      ensures donors == old(donors) + [d]
      ensures notifications == [NewNotification(WelcomeFor(d), d.id + 1)] + old(notifications)
      ensures nextUuid == old(nextUuid) + 2
    {
      var id := DrawUuid();
      d := NewDonor(input, id, clock.instant);
      donors := donors + [d];
      var _ := AddNotification(WelcomeFor(d));
    }

    /** updateDonor: the first donor with this uuid is merged with the patch
        under updateDonor's rules; an unknown uuid changes nothing. */
    method UpdateDonor(id: Uuid, p: DonorPatch) returns (r: Option<Donor>)
      requires Valid()
      modifies this`donors
      ensures Valid()
      ensures r.None? <==> IndexOf(old(donors), DonorKey, id).None?
      ensures r.None? ==> donors == old(donors)
      ensures r.Some? ==>
        var i := IndexOf(old(donors), DonorKey, id).value;
        r.value == UpdatedDonor(old(donors)[i], p) && donors == old(donors)[i := r.value]
    {
      var found := IndexOf(donors, DonorKey, id);
      if found.None? {
        return None;
      }
      var i := found.value;
      var u := UpdatedDonor(donors[i], p);
      donors := donors[i := u];
      r := Some(u);
    }

    /** deleteDonor: every donor with this uuid goes; the answer says whether
        there was one. */
    method DeleteDonor(id: Uuid) returns (deleted: bool)
      requires Valid()
      modifies this`donors
      ensures Valid()
      ensures donors == RemoveAll(old(donors), DonorKey, id)
      ensures deleted <==> exists j :: 0 <= j < |old(donors)| && old(donors)[j].id == id
    {
      var filtered := RemoveAll(donors, DonorKey, id);
      deleted := |filtered| != |donors|;
      donors := filtered;
    }

    // ============ guests ============

    /** addGuest: the guest is appended under a fresh uuid. */
    method AddGuest(input: Guest) returns (g: Guest)
      requires Valid()
      modifies this`guests, this`nextUuid
      ensures Valid()
      ensures g == input.(id := old(nextUuid))
      ensures forall j :: 0 <= j < |old(guests)| ==> old(guests)[j].id != g.id
      ensures guests == old(guests) + [g]
      ensures nextUuid == old(nextUuid) + 1
    {
      var id := DrawUuid();
      g := input.(id := id);
      guests := guests + [g];
    }

    // ============ rooms ============

    /** The loading half of getRooms: an empty inventory is replaced by the
        eight default rooms, drawing eight uuids. */
    method LoadRooms()
      requires Valid()
      modifies this`rooms, this`nextUuid
      ensures Valid()
      ensures rooms == SeedIfEmpty(old(rooms), old(nextUuid))
      ensures nextUuid == old(nextUuid) + SeedUuids(old(rooms))
    {
      if |rooms| == 0 {
        rooms := DefaultRooms(nextUuid);
        nextUuid := nextUuid + SeedSize;
      }
    }

    /** getRooms. */
    method GetRooms() returns (rs: seq<Room>)
      requires Valid()
      modifies this`rooms, this`nextUuid
      ensures Valid()
      ensures rs == rooms == SeedIfEmpty(old(rooms), old(nextUuid))
      ensures nextUuid == old(nextUuid) + SeedUuids(old(rooms))
      ensures |rs| > 0
    {
      LoadRooms();
      rs := rooms;
    }

    /** addRoom: the room is appended, under a fresh uuid, to the inventory
        getRooms loaded. */
    method AddRoom(input: Room) returns (room: Room)
      requires Valid()
      modifies this`rooms, this`nextUuid
      ensures Valid()
      ensures room == input.(id := old(nextUuid) + SeedUuids(old(rooms)))
      ensures rooms == SeedIfEmpty(old(rooms), old(nextUuid)) + [room]
      ensures nextUuid == room.id + 1
    {
      LoadRooms();
      var id := DrawUuid();
      room := input.(id := id);
      rooms := rooms + [room];
    }

    /** updateRoom: the first room with this uuid, in the inventory getRooms
        loaded, is merged with the patch; an unknown uuid changes nothing
        beyond the loading. */
    method UpdateRoom(id: Uuid, p: RoomPatch) returns (r: Option<Room>)
      requires Valid()
      modifies this`rooms, this`nextUuid
      ensures Valid()
      ensures nextUuid == old(nextUuid) + SeedUuids(old(rooms))
      ensures var loaded := SeedIfEmpty(old(rooms), old(nextUuid));
        (r.None? <==> IndexOf(loaded, RoomKey, id).None?) &&
        (r.None? ==> rooms == loaded) &&
        (r.Some? ==>
          var i := IndexOf(loaded, RoomKey, id).value;
          r.value == UpdatedRoom(loaded[i], p) && rooms == loaded[i := r.value])
    {
      LoadRooms();
      var found := IndexOf(rooms, RoomKey, id);
      if found.None? {
        return None;
      }
      var i := found.value;
      var u := UpdatedRoom(rooms[i], p);
      rooms := rooms[i := u];
      r := Some(u);
    }

    /** deleteRoom: every room with this uuid goes from the inventory
        getRooms loaded. */
    method DeleteRoom(id: Uuid) returns (deleted: bool)
      requires Valid()
      modifies this`rooms, this`nextUuid
      ensures Valid()
      ensures nextUuid == old(nextUuid) + SeedUuids(old(rooms))
      ensures var loaded := SeedIfEmpty(old(rooms), old(nextUuid));
        rooms == RemoveAll(loaded, RoomKey, id) &&
        (deleted <==> exists j :: 0 <= j < |loaded| && loaded[j].id == id)
    {
      LoadRooms();
      var filtered := RemoveAll(rooms, RoomKey, id);
      deleted := |filtered| != |rooms|;
      rooms := filtered;
    }

    /** The forEach of addBooking and checkOut: for each number, load the
        rooms, then change the first room with that number, if any. */
    method WalkRooms(numbers: seq<string>, c: RoomChange)
      requires Valid()
      modifies this`rooms, this`nextUuid
      ensures Valid()
      ensures rooms == RoomsAfterWalk(old(rooms), old(nextUuid), numbers, c)
      ensures nextUuid == UuidsAfterWalk(old(rooms), old(nextUuid), numbers)
    {
      var rs, next := rooms, nextUuid;
      ghost var loaded := SeedIfEmpty(rs, next);
      ghost var loadedNext := next + SeedUuids(rs);
      var i := 0;
      while i < |numbers|
        invariant 0 <= i <= |numbers|
        invariant i == 0 ==> rs == rooms && next == nextUuid
        invariant i > 0 ==> rs == ChangeListed(loaded, numbers[..i], c) && next == loadedNext
      {
        // getRooms, as each turn of the forEach calls it
        if |rs| == 0 {
          rs := DefaultRooms(next);
          next := next + SeedSize;
        }
        var found := IndexOf(rs, RoomNumberKey, numbers[i]);
        if found.Some? {
          var k := found.value;
          rs := rs[k := ApplyChange(rs[k], c)];
        }
        assert numbers[..i + 1][..i] == numbers[..i];
        i := i + 1;
      }
      assert numbers[..|numbers|] == numbers;
      rooms, nextUuid := rs, next;
    }

    // ============ bookings ============

    /** addBooking: the booking is appended under a fresh uuid, recorded in
        its donor's history (charging free rooms for a free stay), and its
        rooms are marked occupied by its guest. */
    method AddBooking(input: Visit) returns (v: Visit)
      requires Valid()
      modifies this`bookings, this`donors, this`rooms, this`nextUuid
      ensures Valid()
      ensures v == input.(id := old(nextUuid))
      ensures forall j :: 0 <= j < |old(bookings)| ==> old(bookings)[j].id != v.id
      ensures bookings == old(bookings) + [v]
      ensures donors == RecordVisit(old(donors), v)
      ensures rooms == RoomsAfterWalk(old(rooms), v.id + 1, v.roomNumbers, OccupyFor(v))
      ensures nextUuid == UuidsAfterWalk(old(rooms), v.id + 1, v.roomNumbers)
    {
      var id := DrawUuid();
      v := input.(id := id);
      bookings := bookings + [v];
      donors := RecordVisit(donors, v);
      assert Valid();
      WalkRooms(v.roomNumbers, OccupyFor(v));
    }

    /** updateBooking: the first booking with this uuid is merged with the
        patch, and its copy in its donor's history is overwritten with the
        result; an unknown uuid changes nothing. */
    method UpdateBooking(id: Uuid, p: VisitPatch) returns (r: Option<Visit>)
      requires Valid()
      modifies this`bookings, this`donors
      ensures Valid()
      ensures r.None? <==> IndexOf(old(bookings), VisitKey, id).None?
      ensures r.None? ==> bookings == old(bookings) && donors == old(donors)
      ensures r.Some? ==>
        var i := IndexOf(old(bookings), VisitKey, id).value;
        r.value == UpdatedVisit(old(bookings)[i], p) &&
        bookings == old(bookings)[i := r.value] &&
        donors == SyncVisitHistory(old(donors), r.value)
    {
      var found := IndexOf(bookings, VisitKey, id);
      if found.None? {
        return None;
      }
      var i := found.value;
      var u := UpdatedVisit(bookings[i], p);
      bookings := bookings[i := u];
      donors := SyncVisitHistory(donors, u);
      r := Some(u);
    }

    /** checkIn: updateBooking with the check-in patch. */
    method CheckIn(id: Uuid, date: Option<Day>, time: Option<string>, clock: Clock) returns (r: Option<Visit>)
      requires Valid()
      modifies this`bookings, this`donors
      ensures Valid()
      ensures r.None? <==> IndexOf(old(bookings), VisitKey, id).None?
      ensures r.None? ==> bookings == old(bookings) && donors == old(donors)
      ensures r.Some? ==>
        var i := IndexOf(old(bookings), VisitKey, id).value;
        r.value == CheckedInVisit(old(bookings)[i], date, time, clock) &&
        bookings == old(bookings)[i := r.value] &&
        donors == SyncVisitHistory(old(donors), r.value)
    {
      r := UpdateBooking(id, CheckInPatch(date, time, clock));
    }

    /** checkOut: an unknown booking changes nothing; otherwise the booking's
        rooms are released and the booking is updated with the check-out
        patch. */
    method CheckOut(id: Uuid, date: Option<Day>, time: Option<string>, clock: Clock) returns (r: Option<Visit>)
      requires Valid()
      modifies this`bookings, this`donors, this`rooms, this`nextUuid
      ensures Valid()
      ensures r.None? <==> IndexOf(old(bookings), VisitKey, id).None?
      ensures r.None? ==>
        bookings == old(bookings) && donors == old(donors) &&
        rooms == old(rooms) && nextUuid == old(nextUuid)
      ensures r.Some? ==>
        var i := IndexOf(old(bookings), VisitKey, id).value;
        var b := old(bookings)[i];
        rooms == RoomsAfterWalk(old(rooms), old(nextUuid), b.roomNumbers, Release) &&
        nextUuid == UuidsAfterWalk(old(rooms), old(nextUuid), b.roomNumbers) &&
        r.value == CheckedOutVisit(b, date, time, clock) &&
        bookings == old(bookings)[i := r.value] &&
        donors == SyncVisitHistory(old(donors), r.value)
    {
      var found := IndexOf(bookings, VisitKey, id);
      if found.None? {
        return None;
      }
      WalkRooms(bookings[found.value].roomNumbers, Release);
      r := UpdateBooking(id, CheckOutPatch(date, time, clock));
    }

    // ============ payments ============

    /** addPayment: the payment is appended under a fresh uuid, carrying the
        name of its donor if the donor exists. */
    method AddPayment(input: Payment) returns (p: Payment)
      requires Valid()
      modifies this`payments, this`nextUuid
      ensures Valid()
      ensures p == NewPayment(input, old(nextUuid), DonorById(donors, input.donorId))
      ensures forall j :: 0 <= j < |old(payments)| ==> old(payments)[j].id != p.id
      ensures payments == old(payments) + [p]
      ensures nextUuid == old(nextUuid) + 1
    {
      var id := DrawUuid();
      p := NewPayment(input, id, DonorById(donors, input.donorId));
      payments := payments + [p];
    }

    /** addInstallment: an unknown payment changes nothing; otherwise the
        installment (fresh uuid) is added to the first payment with this
        uuid, the paying donor's donation is reconciled with all it paid, and
        a payment confirmation (next uuid) is put in front of the
        notifications. */
    method AddInstallment(paymentId: Uuid, input: Installment) returns (r: Option<Installment>)
      requires Valid()
      modifies this`payments, this`donors, this`notifications, this`nextUuid
      ensures Valid()
      ensures r.None? <==> IndexOf(old(payments), PaymentKey, paymentId).None?
      ensures r.None? ==>
        payments == old(payments) && donors == old(donors) &&
        notifications == old(notifications) && nextUuid == old(nextUuid)
      ensures r.Some? ==>
        var i := IndexOf(old(payments), PaymentKey, paymentId).value;
        var p := WithInstallment(old(payments)[i], r.value);
        r.value == NewInstallment(input, old(nextUuid), paymentId) &&
        payments == old(payments)[i := p] &&
        donors == Reconciled(old(donors), payments, p.donorId) &&
        notifications == [NewNotification(PaymentNoticeFor(p), old(nextUuid) + 1)] + old(notifications) &&
        nextUuid == old(nextUuid) + 2
    {
      var found := IndexOf(payments, PaymentKey, paymentId);
      if found.None? {
        return None;
      }
      var i := found.value;
      var id := DrawUuid();
      var inst := NewInstallment(input, id, paymentId);
      var p := WithInstallment(payments[i], inst);
      payments := payments[i := p];
      donors := Reconciled(donors, payments, p.donorId);
      var _ := AddNotification(PaymentNoticeFor(p));
      r := Some(inst);
    }

    // ============ bills ============

    /** generateBillNumber: the counter goes up by one and, with today's
        date, names the bill. */
    method GenerateBillNumber(clock: Clock) returns (number: string)
      modifies this`billCounter
      ensures billCounter == old(billCounter) + 1
      ensures number == BillNumber(clock.dateDigits, billCounter)
    {
      billCounter := billCounter + 1;
      number := BillNumber(clock.dateDigits, billCounter);
    }

    /** generateBill: an unknown booking changes nothing; otherwise the bill
        for the first booking with this uuid is appended, under a fresh uuid
        and the next bill number. */
    method GenerateBill(bookingId: Uuid, clock: Clock) returns (r: Option<Bill>)
      requires Valid()
      modifies this`bills, this`billCounter, this`nextUuid
      ensures Valid()
      ensures r.None? <==> IndexOf(bookings, VisitKey, bookingId).None?
      ensures r.None? ==>
        bills == old(bills) && billCounter == old(billCounter) && nextUuid == old(nextUuid)
      ensures r.Some? ==>
        var v := bookings[IndexOf(bookings, VisitKey, bookingId).value];
        billCounter == old(billCounter) + 1 &&
        r.value == MakeBill(v, BillIdentity(v, donors, guests), old(nextUuid),
                            BillNumber(clock.dateDigits, billCounter), clock) &&
        bills == old(bills) + [r.value] &&
        nextUuid == old(nextUuid) + 1
    {
      var found := IndexOf(bookings, VisitKey, bookingId);
      if found.None? {
        return None;
      }
      var v := bookings[found.value];
      var who := BillIdentity(v, donors, guests);
      var id := DrawUuid();
      var number := GenerateBillNumber(clock);
      var bill := MakeBill(v, who, id, number, clock);
      bills := bills + [bill];
      r := Some(bill);
    }

    // ============ notifications ============

    /** addNotification: the notification, unread and under a fresh uuid,
        goes in front. */
    method AddNotification(input: Notification) returns (n: Notification)
      requires Valid()
      modifies this`notifications, this`nextUuid
      ensures Valid()
      ensures n == NewNotification(input, old(nextUuid))
      ensures forall j :: 0 <= j < |old(notifications)| ==> old(notifications)[j].id != n.id
      ensures notifications == [n] + old(notifications)
      ensures nextUuid == old(nextUuid) + 1
    {
      var id := DrawUuid();
      n := NewNotification(input, id);
      notifications := [n] + notifications;
    }

    /** markNotificationRead: the first notification with this uuid is read;
        the answer says whether there was one. */
    method MarkNotificationRead(id: Uuid) returns (marked: bool)
      requires Valid()
      modifies this`notifications
      ensures Valid()
      ensures marked <==> IndexOf(old(notifications), NotificationKey, id).Some?
      ensures !marked ==> notifications == old(notifications)
      ensures marked ==>
        var i := IndexOf(old(notifications), NotificationKey, id).value;
        notifications == old(notifications)[i := old(notifications)[i].(read := true)]
    {
      var found := IndexOf(notifications, NotificationKey, id);
      if found.None? {
        return false;
      }
      var i := found.value;
      notifications := notifications[i := notifications[i].(read := true)];
      marked := true;
    }

    /** markAllNotificationsRead: every notification is read, in place. */
    method MarkAllNotificationsRead()
      requires Valid()
      modifies this`notifications
      ensures Valid()
      ensures notifications == AllRead(old(notifications))
    {
      var i := 0;
      while i < |notifications|
        invariant 0 <= i <= |notifications| == |old(notifications)|
        invariant forall j :: 0 <= j < i ==> notifications[j] == old(notifications)[j].(read := true)
        invariant forall j :: i <= j < |notifications| ==> notifications[j] == old(notifications)[j]
      {
        notifications := notifications[i := notifications[i].(read := true)];
        i := i + 1;
      }
    }
  }
}
