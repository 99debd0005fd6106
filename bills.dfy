/** The bill generator: the guest identity a bill shows, the number of
    nights, and the bill snapshot itself (src/lib/storage.ts, generateBill).
    Dates are day numbers; the source's `Date` arithmetic in milliseconds is
    kept, with JavaScript's `Math.ceil` of a float quotient written as an
    integer ceiling division. */
module BillGenerator {
  import opened Records
  import opened Collections
  import opened BookingEngine

  const DayMs: int := 86400000

  const HotelName: string := "DonorStay Guest House"
  const HotelAddress: string := "Main Road, City Center"
  const HotelPhone: string := "+91 7207357312"

  /** `Math.ceil(ms / DayMs)`: the number of days begun in `ms`
      milliseconds. */
  function DaysStarted(ms: int): (n: int)
    ensures (n - 1) * DayMs < ms <= n * DayMs
  {
    -((-ms) / DayMs)
  }

  /** `Math.max(1, Math.ceil((checkOut - checkIn) / DayMs))`, the check-out
      instant being midnight of the check-out date, or now if there is none.
      At least one night; whole dates give their difference; an open stay
      counts every day begun. */
  function Nights(checkIn: Day, checkOut: Option<Day>, instant: int): (n: int)
    ensures n >= 1
    ensures checkOut.Some? ==> n == if checkOut.value - checkIn >= 1 then checkOut.value - checkIn else 1
    ensures checkOut.None? && instant > checkIn * DayMs ==>
      (n - 1) * DayMs < instant - checkIn * DayMs <= n * DayMs
    ensures checkOut.None? && instant <= checkIn * DayMs ==> n == 1
  {
    var end := if checkOut.Some? then checkOut.value * DayMs else instant;
    var started := DaysStarted(end - checkIn * DayMs);
    if started < 1 then 1 else started
  }

  /** Name, mobile and address printed on a bill. */
  datatype Identity = Identity(name: string, mobile: string, address: string)

  const Unknown: Identity := Identity("", "", "")

  function DonorIdentity(d: Donor): Identity { Identity(d.name, d.mobile, d.address) }

  function GuestIdentity(g: Guest): Identity { Identity(g.name, g.mobile, g.address) }

  /** The identity generateBill resolves at generation time: the donor of a
      donor booking, otherwise the guest the booking names; blank when that
      record is missing (a donor booking never falls back to its guest). */
  function BillIdentity(v: Visit, donors: seq<Donor>, guests: seq<Guest>): (who: Identity)
    ensures forall j :: 0 <= j < |donors| && BookedBy(donors, v, j) ==> who == DonorIdentity(donors[j])
    ensures IsDonorBooking(v) && (forall j :: 0 <= j < |donors| ==> donors[j].id != v.donorId.value) ==>
      who == Unknown
    ensures forall j ::
      (0 <= j < |guests| && !IsDonorBooking(v) && v.guestId == Some(guests[j].id) && IsFirst(guests, GuestKey, j))
      ==> who == GuestIdentity(guests[j])
    ensures !IsDonorBooking(v) && (forall j :: 0 <= j < |guests| ==> v.guestId != Some(guests[j].id)) ==>
      who == Unknown
  {
    if IsDonorBooking(v) then
      match IndexOf(donors, DonorKey, v.donorId.value)
      case None => Unknown
      case Some(j) => DonorIdentity(donors[j])
    else if v.guestId.Some? then
      match IndexOf(guests, GuestKey, v.guestId.value)
      case None => Unknown
      case Some(j) => GuestIdentity(guests[j])
    else Unknown
  }

  /** The bill for booking `v`: a snapshot of its rooms, dates, guests and
      amounts, with at least one night; the room charges are the booking's
      total, all of it discounted for a free stay and none of it otherwise,
      with no taxes. */
  function MakeBill(v: Visit, who: Identity, id: Uuid, billNumber: string, clock: Clock): (b: Bill)
    ensures b.id == id && b.bookingId == v.id && b.billNumber == billNumber
    ensures b.numberOfNights >= 1
    ensures b.numberOfNights == Nights(v.checkInDate, v.checkOutDate, clock.instant)
    ensures b.roomCharges == v.totalAmount && b.taxes == 0
    ensures b.discount + b.totalAmount == b.roomCharges
    ensures v.isFreeStay ==> b.totalAmount == 0 && b.discount == b.roomCharges
    ensures !v.isFreeStay ==> b.discount == 0 && b.totalAmount == b.roomCharges
    ensures b.isFreeStay == v.isFreeStay
    ensures b.paidAmount == v.paidAmount && b.remainingAmount == v.remainingAmount
    ensures b.paymentMethod == OrElse(v.paymentMethod, Cash)
    ensures b.guestName == who.name && b.guestMobile == who.mobile && b.guestAddress == who.address
    ensures b.guestType == v.guestType && b.donorId == v.donorId
    ensures b.roomNumbers == v.roomNumbers && b.numberOfGuests == v.numberOfGuests
    ensures b.checkInDate == v.checkInDate && b.checkInTime == v.checkInTime
    ensures b.checkOutDate == OrElse(v.checkOutDate, clock.today)
    ensures b.checkOutTime == StrOr(v.checkOutTime, clock.time)
    ensures b.hotelName == HotelName && b.hotelAddress == HotelAddress && b.hotelPhone == HotelPhone
    ensures b.roomType == "Standard"
  {
    Bill(
      id := id,
      bookingId := v.id,
      guestName := who.name,
      guestMobile := who.mobile,
      guestAddress := who.address,
      guestType := v.guestType,
      donorId := v.donorId,
      hotelName := HotelName,
      hotelAddress := HotelAddress,
      hotelPhone := HotelPhone,
      roomNumbers := v.roomNumbers,
      roomType := "Standard",
      checkInDate := v.checkInDate,
      checkInTime := v.checkInTime,
      checkOutDate := OrElse(v.checkOutDate, clock.today),
      checkOutTime := StrOr(v.checkOutTime, clock.time),
      numberOfNights := Nights(v.checkInDate, v.checkOutDate, clock.instant),
      numberOfGuests := v.numberOfGuests,
      roomCharges := v.totalAmount,
      taxes := 0,
      discount := if v.isFreeStay then v.totalAmount else 0,
      totalAmount := if v.isFreeStay then 0 else v.totalAmount,
      paidAmount := v.paidAmount,
      remainingAmount := v.remainingAmount,
      paymentMethod := OrElse(v.paymentMethod, Cash),
      isFreeStay := v.isFreeStay,
      billNumber := billNumber)
  }
}
