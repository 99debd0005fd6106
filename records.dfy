/** Record shapes of the guest-house store (src/types/index.ts).

    The source's free-form string discriminators (`guestType`, `status`,
    `type`, payment methods) are closed datatypes here. JavaScript's optional
    properties are `Option`s, money is `int`, a calendar date is a day
    number and a uuid is a `Uuid` handed out by the store (see
    `Storage.Store.nextUuid`). The `createdAt`/`updatedAt` timestamps, which
    the store only uses to sort its getters, are not part of the records.

    Three fields are renamed because their names are Dafny keywords:
    Installment `method` is `paymentMethod`, Room `type` is `roomType`, and
    Notification `type` is `kind`. */
module Records {

  datatype Option<T> = None | Some(value: T)

  /** `o ?? d` for a required record field that a patch may override. */
  function OrElse<T>(o: Option<T>, d: T): T {
    if o.Some? then o.value else d
  }

  /** `o ?? d` for an optional record field that a patch may override. */
  function Override<T>(o: Option<T>, d: Option<T>): Option<T> {
    if o.Some? then o else d
  }

  /** JavaScript truthiness of an optional string: present and non-empty. */
  predicate Given(s: Option<string>) {
    s.Some? && s.value != ""
  }

  /** `s || d` on an optional string. */
  function StrOr(s: Option<string>, d: string): string {
    if Given(s) then s.value else d
  }

  /** An identifier produced by `uuidv4()`. */
  type Uuid = nat

  /** A calendar date, as days since 1970-01-01 (UTC). */
  type Day = int

  /** What the source reads from `new Date()` at the moment of a call. */
  datatype Clock = Clock(
    instant: int,        // Date.now(), milliseconds since the epoch
    today: Day,          // now.toISOString().split('T')[0]
    dateDigits: string,  // the same date as YYYYMMDD
    time: string         // now.toTimeString().slice(0, 5), "HH:MM"
  )

  datatype PaymentMethod = Cash | Card | Upi | BankTransfer | Cheque | Mixed

  datatype GuestType = DonorGuest | NonDonor

  datatype VisitStatus = Upcoming | CheckedIn | CheckedOut

  datatype RoomType = Single | Double | Suite | Deluxe | Dormitory

  datatype RoomStatus = Available | Occupied | Maintenance | Reserved

  datatype PaymentStatus = Pending | Partial | Completed

  datatype NotificationType =
    | Welcome
    | BookingConfirmation
    | CheckInReminder
    | CheckInConfirmation
    | CheckOutReminder
    | CheckOutConfirmation
    | PaymentConfirmation
    | PaymentDue

  /** The `${date}T${time}` stamp recorded beside a check-in or check-out. */
  datatype Stamp = Stamp(date: Day, time: string)

  /** A booking. It names either a donor or a guest, per `guestType`. */
  datatype Visit = Visit(
    id: Uuid,
    donorId: Option<Uuid>,
    guestId: Option<Uuid>,
    guestType: GuestType,
    checkInDate: Day,
    checkInTime: string,
    checkInAutoTime: Option<Stamp>,
    checkInManuallyEdited: Option<bool>,
    checkOutDate: Option<Day>,
    checkOutTime: Option<string>,
    checkOutAutoTime: Option<Stamp>,
    checkOutManuallyEdited: Option<bool>,
    expectedCheckOutDate: Option<Day>,
    roomNumbers: seq<string>,
    numberOfGuests: int,
    status: VisitStatus,
    totalAmount: int,
    paidAmount: int,
    remainingAmount: int,
    paymentMethod: Option<PaymentMethod>,
    isFreeStay: bool
  )

  /** A donor. `donorId` is the public code (DNR1001, ...); `id` the uuid
      other records refer to. `visitHistory` is a copy of the donor's
      bookings. */
  datatype Donor = Donor(
    id: Uuid,
    donorId: string,
    name: string,
    mobile: string,
    address: string,
    aadharCard: string,
    modeOfPayment: PaymentMethod,
    photo: Option<string>,
    donationAmount: int,
    freeRoomsEntitled: int,
    freeDaysEntitled: int,
    freeRoomsUsed: int,
    freeDaysUsed: int,
    qrCode: Option<string>,
    visitHistory: seq<Visit>
  )

  /** A guest who is not a donor. */
  datatype Guest = Guest(
    id: Uuid,
    name: string,
    mobile: string,
    address: string,
    governmentId: Option<string>
  )

  datatype Room = Room(
    id: Uuid,
    roomNumber: string,
    floor: string,
    roomType: RoomType,
    capacity: int,
    status: RoomStatus,
    currentGuestId: Option<Uuid>,
    currentGuestType: Option<GuestType>,
    pricePerNight: int,
    amenities: Option<seq<string>>
  )

  datatype Installment = Installment(
    id: Uuid,
    paymentId: Uuid,
    installmentNumber: int,
    amount: int,
    paidDate: Day,
    paymentMethod: PaymentMethod,
    referenceNumber: Option<string>,
    proofImage: Option<string>,
    notes: Option<string>
  )

  /** A donor's pledge and the installments paid against it. */
  datatype Payment = Payment(
    id: Uuid,
    donorId: Uuid,
    donorName: Option<string>,
    totalAmount: int,
    amountPaid: int,
    remainingAmount: int,
    numberOfInstallments: int,
    installments: seq<Installment>,
    status: PaymentStatus
  )

  /** A notification; its free-text message is not modelled. */
  datatype Notification = Notification(
    id: Uuid,
    donorId: Option<Uuid>,
    guestId: Option<Uuid>,
    guestName: string,
    kind: NotificationType,
    read: bool
  )

  datatype Bill = Bill(
    id: Uuid,
    bookingId: Uuid,
    guestName: string,
    guestMobile: string,
    guestAddress: string,
    guestType: GuestType,
    donorId: Option<Uuid>,
    hotelName: string,
    hotelAddress: string,
    hotelPhone: string,
    roomNumbers: seq<string>,
    roomType: string,
    checkInDate: Day,
    checkInTime: string,
    checkOutDate: Day,
    checkOutTime: string,
    numberOfNights: int,
    numberOfGuests: int,
    roomCharges: int,
    taxes: int,
    discount: int,
    totalAmount: int,
    paidAmount: int,
    remainingAmount: int,
    paymentMethod: PaymentMethod,
    isFreeStay: bool,
    billNumber: string
  )

  // Key functions, passed to the lookups of module Collections.
  function DonorKey(d: Donor): Uuid { d.id }
  function GuestKey(g: Guest): Uuid { g.id }
  function VisitKey(v: Visit): Uuid { v.id }
  function RoomKey(r: Room): Uuid { r.id }
  function RoomNumberKey(r: Room): string { r.roomNumber }
  function PaymentKey(p: Payment): Uuid { p.id }
  function NotificationKey(n: Notification): Uuid { n.id }
}
