/** The booking engine's record-level rules: booking patches, the check-in
    and check-out patches, the donor-side effects of addBooking, and the copy
    of a booking that updateBooking keeps in the donor's visit history
    (src/lib/storage.ts). */
module BookingEngine {
  import opened Records
  import opened Collections
  import opened RoomInventory

  /** `Partial<Visit>` as callers pass it to updateBooking, without the
      uuid. */
  datatype VisitPatch = VisitPatch(
    donorId: Option<Uuid>,
    guestId: Option<Uuid>,
    guestType: Option<GuestType>,
    checkInDate: Option<Day>,
    checkInTime: Option<string>,
    checkInAutoTime: Option<Stamp>,
    checkInManuallyEdited: Option<bool>,
    checkOutDate: Option<Day>,
    checkOutTime: Option<string>,
    checkOutAutoTime: Option<Stamp>,
    checkOutManuallyEdited: Option<bool>,
    expectedCheckOutDate: Option<Day>,
    roomNumbers: Option<seq<string>>,
    numberOfGuests: Option<int>,
    status: Option<VisitStatus>,
    totalAmount: Option<int>,
    paidAmount: Option<int>,
    remainingAmount: Option<int>,
    paymentMethod: Option<PaymentMethod>,
    isFreeStay: Option<bool>
  )

  const NoVisitChange: VisitPatch := VisitPatch(
    None, None, None, None, None, None, None, None, None, None,
    None, None, None, None, None, None, None, None, None, None)

  /** `{ ...v, ...p }`: the uuid is kept, every key the patch names takes the
      patch's value and every other key keeps the booking's. */
  function UpdatedVisit(v: Visit, p: VisitPatch): (r: Visit)
    ensures r.id == v.id
    ensures p == NoVisitChange ==> r == v
    ensures r.donorId == Override(p.donorId, v.donorId) && r.guestId == Override(p.guestId, v.guestId)
    ensures r.guestType == OrElse(p.guestType, v.guestType)
    ensures r.checkInDate == OrElse(p.checkInDate, v.checkInDate)
    ensures r.checkInTime == OrElse(p.checkInTime, v.checkInTime)
    ensures r.checkInAutoTime == Override(p.checkInAutoTime, v.checkInAutoTime)
    ensures r.checkInManuallyEdited == Override(p.checkInManuallyEdited, v.checkInManuallyEdited)
    ensures r.checkOutDate == Override(p.checkOutDate, v.checkOutDate)
    ensures r.checkOutTime == Override(p.checkOutTime, v.checkOutTime)
    ensures r.checkOutAutoTime == Override(p.checkOutAutoTime, v.checkOutAutoTime)
    ensures r.checkOutManuallyEdited == Override(p.checkOutManuallyEdited, v.checkOutManuallyEdited)
    ensures r.expectedCheckOutDate == Override(p.expectedCheckOutDate, v.expectedCheckOutDate)
    ensures r.roomNumbers == OrElse(p.roomNumbers, v.roomNumbers)
    ensures r.numberOfGuests == OrElse(p.numberOfGuests, v.numberOfGuests)
    ensures r.status == OrElse(p.status, v.status)
    ensures r.totalAmount == OrElse(p.totalAmount, v.totalAmount)
    ensures r.paidAmount == OrElse(p.paidAmount, v.paidAmount)
    ensures r.remainingAmount == OrElse(p.remainingAmount, v.remainingAmount)
    ensures r.paymentMethod == Override(p.paymentMethod, v.paymentMethod)
    ensures r.isFreeStay == OrElse(p.isFreeStay, v.isFreeStay)
  {
    v.(
      donorId := Override(p.donorId, v.donorId),
      guestId := Override(p.guestId, v.guestId),
      guestType := OrElse(p.guestType, v.guestType),
      checkInDate := OrElse(p.checkInDate, v.checkInDate),
      checkInTime := OrElse(p.checkInTime, v.checkInTime),
      checkInAutoTime := Override(p.checkInAutoTime, v.checkInAutoTime),
      checkInManuallyEdited := Override(p.checkInManuallyEdited, v.checkInManuallyEdited),
      checkOutDate := Override(p.checkOutDate, v.checkOutDate),
      checkOutTime := Override(p.checkOutTime, v.checkOutTime),
      checkOutAutoTime := Override(p.checkOutAutoTime, v.checkOutAutoTime),
      checkOutManuallyEdited := Override(p.checkOutManuallyEdited, v.checkOutManuallyEdited),
      expectedCheckOutDate := Override(p.expectedCheckOutDate, v.expectedCheckOutDate),
      roomNumbers := OrElse(p.roomNumbers, v.roomNumbers),
      numberOfGuests := OrElse(p.numberOfGuests, v.numberOfGuests),
      status := OrElse(p.status, v.status),
      totalAmount := OrElse(p.totalAmount, v.totalAmount),
      paidAmount := OrElse(p.paidAmount, v.paidAmount),
      remainingAmount := OrElse(p.remainingAmount, v.remainingAmount),
      paymentMethod := Override(p.paymentMethod, v.paymentMethod),
      isFreeStay := OrElse(p.isFreeStay, v.isFreeStay))
  }

  /** Applying the same patch twice is applying it once. */
  lemma UpdateVisitIdempotent(v: Visit, p: VisitPatch)
    ensures UpdatedVisit(UpdatedVisit(v, p), p) == UpdatedVisit(v, p)
  {
  }

  /** `booking.guestType === 'donor' && booking.donorId`. */
  predicate IsDonorBooking(v: Visit) {
    v.guestType == DonorGuest && v.donorId.Some?
  }

  /** The change addBooking makes to each of the booking's rooms: occupied by
      `donorId || guestId`, of the booking's guest type. */
  function OccupyFor(v: Visit): (c: RoomChange)
    ensures c.Occupy? && c.guestType == v.guestType
    ensures v.donorId.Some? ==> c.guestId == v.donorId
    ensures v.donorId.None? ==> c.guestId == v.guestId
  {
    Occupy(if v.donorId.Some? then v.donorId else v.guestId, v.guestType)
  }

  /** The donor after addBooking: the booking appended to the visit history,
      and, for a free stay, one free room used per room booked. The free days
      used are not touched. */
  function RecordedVisit(d: Donor, v: Visit): (r: Donor)
    ensures r.visitHistory == d.visitHistory + [v]
    ensures r.freeRoomsUsed == d.freeRoomsUsed + (if v.isFreeStay then |v.roomNumbers| else 0)
    ensures r == d.(visitHistory := r.visitHistory, freeRoomsUsed := r.freeRoomsUsed)
  {
    d.(visitHistory := d.visitHistory + [v],
       freeRoomsUsed := if v.isFreeStay then d.freeRoomsUsed + |v.roomNumbers| else d.freeRoomsUsed)
  }

  /** Donor `j` is the one a donor booking `v` names (the first with that
      uuid). */
  ghost predicate BookedBy(donors: seq<Donor>, v: Visit, j: int)
    requires 0 <= j < |donors|
  {
    IsDonorBooking(v) && donors[j].id == v.donorId.value && IsFirst(donors, DonorKey, j)
  }

  /** The donors after addBooking: only the donor the booking names changes,
      as RecordedVisit says; a non-donor booking or an unknown donor changes
      nothing. */
  function RecordVisit(donors: seq<Donor>, v: Visit): (r: seq<Donor>)
    ensures |r| == |donors|
    ensures forall j :: 0 <= j < |donors| ==> r[j].id == donors[j].id
    ensures forall j :: 0 <= j < |donors| ==>
      r[j] == if BookedBy(donors, v, j) then RecordedVisit(donors[j], v) else donors[j]
  {
    if IsDonorBooking(v) then
      match IndexOf(donors, DonorKey, v.donorId.value)
      case None => donors
      case Some(i) => donors[i := RecordedVisit(donors[i], v)]
    else donors
  }

  /** Entry `k` of donor `j`'s history is the copy of `v` that updateBooking
      overwrites: `v` is a donor booking naming donor `j`, and `k` is the
      first entry with `v`'s uuid. */
  ghost predicate CopyOf(donors: seq<Donor>, v: Visit, j: int, k: int)
    requires 0 <= j < |donors| && 0 <= k < |donors[j].visitHistory|
  {
    BookedBy(donors, v, j) && donors[j].visitHistory[k].id == v.id &&
    IsFirst(donors[j].visitHistory, VisitKey, k)
  }

  /** The donors after updateBooking wrote `v`: the copy of `v` in its donor's
      visit history now equals `v`; every other entry, every other field and
      every other donor is as it was. */
  function SyncVisitHistory(donors: seq<Donor>, v: Visit): (r: seq<Donor>)
    ensures |r| == |donors|
    ensures forall j :: 0 <= j < |donors| ==>
      r[j] == donors[j].(visitHistory := r[j].visitHistory) &&
      |r[j].visitHistory| == |donors[j].visitHistory|
    ensures forall j, k :: 0 <= j < |donors| && 0 <= k < |donors[j].visitHistory| ==>
      r[j].visitHistory[k] == if CopyOf(donors, v, j, k) then v else donors[j].visitHistory[k]
  {
    if IsDonorBooking(v) then
      match IndexOf(donors, DonorKey, v.donorId.value)
      case None => donors
      case Some(i) =>
        match IndexOf(donors[i].visitHistory, VisitKey, v.id)
        case None => donors
        case Some(k) => donors[i := donors[i].(visitHistory := donors[i].visitHistory[k := v])]
    else donors
  }

  /** After the sync, looking the booking up in its donor's history finds
      exactly the booking that was written. */
  lemma SyncedCopyIsFound(donors: seq<Donor>, v: Visit, j: int, k: int)
    requires 0 <= j < |donors| && 0 <= k < |donors[j].visitHistory|
    requires CopyOf(donors, v, j, k)
    ensures var h := SyncVisitHistory(donors, v)[j].visitHistory;
      IndexOf(h, VisitKey, v.id) == Some(k) && h[k] == v
  {
    var h := SyncVisitHistory(donors, v)[j].visitHistory;
    IndexOfSameKeys(h, VisitKey, donors[j].visitHistory, VisitKey, v.id);
  }

  /** A date or a time was given: `!!(date || time)`. */
  predicate ManualEntry(date: Option<Day>, time: Option<string>) {
    date.Some? || Given(time)
  }

  /** The patch checkIn hands to updateBooking: the status, the given
      date or else today, the given time or else now, the stamp of the two,
      whether anything was given; no other key. */
  function CheckInPatch(date: Option<Day>, time: Option<string>, clock: Clock): (q: VisitPatch)
    ensures q.status == Some(CheckedIn)
    ensures q.checkInDate == Some(if date.Some? then date.value else clock.today)
    ensures q.checkInTime == Some(if Given(time) then time.value else clock.time)
    ensures q.checkInAutoTime == Some(Stamp(if date.Some? then date.value else clock.today,
                                              if Given(time) then time.value else clock.time))
    ensures q.checkInManuallyEdited == Some(date.Some? || Given(time))
    ensures q == NoVisitChange.(status := q.status, checkInDate := q.checkInDate,
                                checkInTime := q.checkInTime, checkInAutoTime := q.checkInAutoTime,
                                checkInManuallyEdited := q.checkInManuallyEdited)
  {
    var autoDate := OrElse(date, clock.today);
    var autoTime := StrOr(time, clock.time);
    NoVisitChange.(
      status := Some(CheckedIn),
      checkInDate := Some(OrElse(date, autoDate)),
      checkInTime := Some(StrOr(time, autoTime)),
      checkInAutoTime := Some(Stamp(autoDate, autoTime)),
      checkInManuallyEdited := Some(ManualEntry(date, time)))
  }

  /** The patch checkOut hands to updateBooking: the status, the given
      date or else today, the given time or else now, the stamp of the two,
      whether anything was given; no other key. */
  function CheckOutPatch(date: Option<Day>, time: Option<string>, clock: Clock): (q: VisitPatch)
    ensures q.status == Some(CheckedOut)
    ensures q.checkOutDate == Some(if date.Some? then date.value else clock.today)
    ensures q.checkOutTime == Some(if Given(time) then time.value else clock.time)
    ensures q.checkOutAutoTime == Some(Stamp(if date.Some? then date.value else clock.today,
                                              if Given(time) then time.value else clock.time))
    ensures q.checkOutManuallyEdited == Some(date.Some? || Given(time))
    ensures q == NoVisitChange.(status := q.status, checkOutDate := q.checkOutDate,
                                checkOutTime := q.checkOutTime, checkOutAutoTime := q.checkOutAutoTime,
                                checkOutManuallyEdited := q.checkOutManuallyEdited)
  {
    var autoDate := OrElse(date, clock.today);
    var autoTime := StrOr(time, clock.time);
    NoVisitChange.(
      status := Some(CheckedOut),
      checkOutDate := Some(OrElse(date, autoDate)),
      checkOutTime := Some(StrOr(time, autoTime)),
      checkOutAutoTime := Some(Stamp(autoDate, autoTime)),
      checkOutManuallyEdited := Some(ManualEntry(date, time)))
  }

  /** A booking after checkIn: checked in, on the given date and time or
      else today's; marked as manually edited exactly when a date or a time
      was given; rooms, amounts and check-out fields untouched. */
  function CheckedInVisit(v: Visit, date: Option<Day>, time: Option<string>, clock: Clock): (r: Visit)
    ensures r.status == CheckedIn
    ensures r.checkInManuallyEdited == Some(true) <==> date.Some? || Given(time)
    ensures r.checkInManuallyEdited.Some?
    ensures r.checkInDate == (if date.Some? then date.value else clock.today)
    ensures r.checkInTime == (if Given(time) then time.value else clock.time)
    ensures r.checkInAutoTime == Some(Stamp(r.checkInDate, r.checkInTime))
    ensures r == v.(status := r.status, checkInDate := r.checkInDate, checkInTime := r.checkInTime,
                    checkInAutoTime := r.checkInAutoTime, checkInManuallyEdited := r.checkInManuallyEdited)
  {
    UpdatedVisit(v, CheckInPatch(date, time, clock))
  }

  /** A booking after checkOut, with the same conventions on the check-out
      fields; the check-in fields and the rooms are untouched. */
  function CheckedOutVisit(v: Visit, date: Option<Day>, time: Option<string>, clock: Clock): (r: Visit)
    ensures r.status == CheckedOut
    ensures r.checkOutManuallyEdited == Some(true) <==> date.Some? || Given(time)
    ensures r.checkOutManuallyEdited.Some?
    ensures r.checkOutDate == Some(if date.Some? then date.value else clock.today)
    ensures r.checkOutTime == Some(if Given(time) then time.value else clock.time)
    ensures r.checkOutAutoTime == Some(Stamp(r.checkOutDate.value, r.checkOutTime.value))
    ensures r == v.(status := r.status, checkOutDate := r.checkOutDate, checkOutTime := r.checkOutTime,
                    checkOutAutoTime := r.checkOutAutoTime, checkOutManuallyEdited := r.checkOutManuallyEdited)
  {
    UpdatedVisit(v, CheckOutPatch(date, time, clock))
  }
}
