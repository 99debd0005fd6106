# DonorStay guest-house store, modelled in Dafny

DonorStay is a browser-side guest-house manager. Donors give money to the
house and earn free rooms for it: one room per 29,000 donated, three days per
room. Its whole behaviour lives in one module, `src/lib/storage.ts`. That
module keeps seven collections in `localStorage`: donors, non-donor guests,
rooms, bookings (called visits), payments with their installments, bills and
notifications. It also keeps two counters, one for donor codes (`DNR1001`,
...) and one for bill numbers (`BILL-YYYYMMDD-1001`, ...).

Most operations work the same way. They read a collection, change it in place
and write it back. Several of them also touch other collections:
- a booking is copied into its donor's visit history, uses up free rooms, and
  marks its rooms occupied;
- a check-out releases the booking's rooms;
- an installment adds to its payment, recomputes the payment's status and the
  donor's donation total, and posts a notification;
- a bill takes a snapshot of a booking.

The model has two layers:
- **`Storage.Store`** (store.dfy) is a class whose fields are the seven
  collections, the two counters and a uuid generator. Each exported write
  operation is a method. Each method's `ensures` gives the new state as a
  function of the old state. The core has three `forEach` loops (src/lib/storage.ts:210,
  275 and 544), and each is a `while` loop with invariants. `WalkRooms`
  stands for the first two: it walks a booking's rooms for `addBooking` and
  for `checkOut`. `MarkAllNotificationsRead` is the third: it marks every
  notification read.
- **Specification modules** hold the pure functions those methods are proved
  against, and the lemmas about them:
  - `Entitlement`: the free-room policy;
  - `Text`: donor codes, bill numbers and QR codes;
  - `DonorLedger`: creating and updating donors;
  - `RoomInventory`: the eight-room seed and the room walk;
  - `BookingEngine`: bookings, check-in and check-out;
  - `PaymentLedger`: installments and donation reconciliation;
  - `BillGenerator`: bills;
  - `Notifications`;
  - `Collections`: `findIndex` and `filter`;
  - `Records`: the record shapes (`src/types/index.ts`).

`Scenarios` (scenarios.dfy) traces a donor, a room, a pledge and a bill
through a store that starts empty.

How JavaScript features are represented:
- **uuids.** `uuidv4()` is modelled as a counter `nextUuid` that only goes up.
  The invariant `Valid()` says the uuid of every record in the seven
  collections was drawn before the current value, so a newly drawn uuid is
  never the uuid of such a record. Installment uuids are not covered:
  `addPayment` stores the installments its caller passes with the caller's own
  uuids, so a later drawn uuid may equal one of them.
- **Clock.** Each call's clock readings are bundled into one `Clock` value:
  `Date.now()`, today's date, the date's digits `YYYYMMDD` and the time
  `HH:MM`. The value is passed in as an argument.
- **Dates** are day numbers.
- **Optional fields** are `Option`. A `Partial<T>` patch is a record of
  `Option` fields, and `{...old, ...patch}` takes each field that is present.
- **Truthiness** is written out. `a || b` over numbers treats 0 as false;
  over strings it treats "" as false.

## Model

| member | source | states |
|---|---|---|
| Entitlement.CalculateFreeEntitlement | src/lib/storage.ts:47-52 | rooms is the floor of donation/29000 (the bracket `rooms*29000 <= a < (rooms+1)*29000`); days is 3 × rooms |
| Entitlement.EntitlementMonotonic | src/lib/storage.ts:47-52 | a larger donation never gives fewer free rooms or days |
| Entitlement.EntitlementBounds | src/lib/storage.ts:47-52 | for a non-negative donation, rooms ≥ 0, and rooms is 0 exactly when the donation is below 29000 |
| Text.NatToString | src/lib/storage.ts:39 | the decimal rendering of a number is non-empty, all digits, has no leading zero, and read back as a decimal numeral it denotes exactly that number |
| Text.FirstDonorCodes | src/lib/storage.ts:35-40 | the counters 1001 and 1002 render as the codes `DNR1001` and `DNR1002` |
| Text.NatToStringInjective | src/lib/storage.ts:39 | different numbers render differently |
| Text.IntToString | src/lib/storage.ts:83 | `${i}` of an integer: for i ≥ 0, digits that denote i; below 0, a minus sign followed by digits that denote -i |
| Text.DonorCode | src/lib/storage.ts:39 | the code is `DNR` followed by the digits of the counter, and nothing else |
| Text.BillNumber | src/lib/storage.ts:439 | the number is `BILL-`, the date digits, a dash, and then the digits of the counter, and nothing else |
| Text.QrCode | src/lib/storage.ts:83 | the payload is `DONOR-`, the donor code, a dash, and then the rendering of the instant |
| Text.DonorCodeInjective | src/lib/storage.ts:35-40 | `DNR<n>` codes of different counters are different |
| Text.BillNumberInjective | src/lib/storage.ts:434-440 | `BILL-<date>-<n>` determines both the date digits and the counter, so two bills with different counters never share a number |
| Collections.IndexOf | src/lib/storage.ts:109 | `findIndex`: the first position whose key matches, or none exactly when no element matches |
| Collections.IndexOfFindsFirst | src/lib/storage.ts:109 | `findIndex` returns position j for j's own key exactly when no earlier element has that key |
| Collections.RemoveAll | src/lib/storage.ts:133-134 | `filter(x => x.id !== id)`: keeps only elements with another key, and every element with another key is kept; the length is unchanged exactly when none matched, and then the list is unchanged |
| Collections.RemoveAllInOrder | src/lib/storage.ts:133-134 | the result is the input read at the kept positions, one element per position and in the same order |
| Collections.KeptPositionsSound | src/lib/storage.ts:133-134 | every kept position is inside the input and holds an element with another key |
| Collections.KeptPositionsIncrease | src/lib/storage.ts:133-134 | the kept positions strictly increase, so `filter` keeps the input order |
| Collections.KeptPositionsComplete | src/lib/storage.ts:133-134 | every position holding an element with another key is kept |
| Collections.RemoveAllCount | src/lib/storage.ts:133-134 | each value occurs in the result as often as in the input when its key differs, and not at all otherwise |
| DonorLedger.NewDonor | src/lib/storage.ts:76-91 | the new donor has the given uuid, its QR code `DONOR-<code>-<now>`, zero usage and an empty history; each entitlement keeps the supplied value when it is non-zero and takes the policy's otherwise; the other fields are as supplied |
| DonorLedger.Spread | src/lib/storage.ts:122-126 | `{...d, ...p}` keeps the uuid, takes the QR code, photo and donation from the patch when present and keeps the donor's otherwise, and an empty patch changes nothing |
| DonorLedger.PreparedPatch | src/lib/storage.ts:113-120 | the patch loses its `qrCode` key; when the donation changes to a non-zero amount both entitlement keys become the policy's for that amount; otherwise the patch is unchanged; no other key is touched |
| DonorLedger.UpdatedDonor | src/lib/storage.ts:111-125 | the uuid and QR code never change; a donation in the patch that is non-zero and differs from the stored one resets both entitlements to the policy's, overriding the caller's; otherwise every field present in the patch wins and every absent one is kept |
| DonorLedger.EmptyUpdateKeepsDonor | src/lib/storage.ts:107-129 | an empty patch leaves the donor unchanged |
| DonorLedger.UpdateIdempotent | src/lib/storage.ts:107-129 | repeating a patch that carries no entitlement changes nothing more |
| DonorLedger.UpdateNotIdempotentWithEntitlement | src/lib/storage.ts:111-116 | two freshly built patches with the same keys, a donation and an entitlement, give different results: the first call gives the policy's entitlement, the second the caller's. Re-sending the same patch object would give the policy's value again, because the source writes it into that object (see Left out) |
| DonorLedger.DonorById | src/lib/storage.ts:59-61 | `getDonorById` returns the first donor with that uuid, and finds none exactly when no donor has it |
| DonorLedger.DonorIdUnique | src/lib/storage.ts:42-45 | true exactly when no donor other than the excluded uuid has the code |
| RoomInventory.UpdatedRoom | src/lib/storage.ts:338-342 | the room's uuid never changes; every key present in the patch wins and every absent one is kept, for all nine keys |
| RoomInventory.EmptyPatchKeepsRoom | src/lib/storage.ts:338-342 | an empty patch leaves the room as it was |
| RoomInventory.UpdateRoomIdempotent | src/lib/storage.ts:338-342 | applying the same patch twice gives the same room as applying it once |
| RoomInventory.DefaultRooms | src/lib/storage.ts:297-311 | the seed is eight available, unoccupied rooms with consecutive fresh uuids and pairwise distinct numbers |
| RoomInventory.SeedIfEmpty | src/lib/storage.ts:297-314 | `getRooms` returns the stored inventory when there is one and otherwise the seed; the result is never empty |
| RoomInventory.ApplyChange | src/lib/storage.ts:213-217 | occupying marks the room `occupied` and records the occupant and guest type; releasing makes it `available` and clears both, whatever its status; nothing else changes |
| RoomInventory.LaterChangeWins | src/lib/storage.ts:210-220 | of two changes to the same room, the later one shows |
| RoomInventory.ChangeListed | src/lib/storage.ts:210-220 | the walk over the room numbers keeps the inventory's length and every room's uuid and number |
| RoomInventory.ChangeListedAt | src/lib/storage.ts:210-220 | after the walk, a room is changed exactly when its number is listed and no earlier room has that number; every other room is unchanged |
| RoomInventory.ChangeListedTwice | src/lib/storage.ts:275-285 | walking the same numbers twice equals walking them once with the second change |
| BookingEngine.UpdatedVisit | src/lib/storage.ts:229-233 | the booking's uuid never changes; every key present in the patch wins and every absent one is kept, for all twenty keys; an empty patch leaves the booking as it was |
| BookingEngine.UpdateVisitIdempotent | src/lib/storage.ts:229-233 | applying the same patch twice gives the same booking as applying it once |
| BookingEngine.OccupyFor | src/lib/storage.ts:215-216 | a booked room's occupant is the donor when the booking has one, the guest otherwise; its guest type is the booking's |
| BookingEngine.RecordedVisit | src/lib/storage.ts:197-202 | the booking is appended to the donor's history; free rooms used grow by the number of rooms only for a free stay; free days used and every other field stay as they were |
| BookingEngine.RecordVisit | src/lib/storage.ts:193-206 | only the donor that a donor booking names, and only the first with that uuid, is updated as RecordedVisit says; no other donor changes |
| BookingEngine.SyncVisitHistory | src/lib/storage.ts:237-247 | the first history entry with the booking's uuid, in the donor the booking names, becomes the updated booking; no other entry, field or donor changes |
| BookingEngine.SyncedCopyIsFound | src/lib/storage.ts:237-247 | after the sync, looking the booking up in its donor's history finds exactly the updated booking |
| BookingEngine.CheckInPatch | src/lib/storage.ts:253-263 | the patch checkIn sends names the status `checked_in`, the given date or else today, the given time or else now, their stamp, and whether a date or time was given; it names no other key |
| BookingEngine.CheckOutPatch | src/lib/storage.ts:270-292 | the same for `checked_out` and the check-out keys |
| BookingEngine.CheckedInVisit | src/lib/storage.ts:252-264 | status is `checked_in`; the flag for manual edits is true exactly when a date or a time was given; the date and time fall back to today and now; the auto stamp is that date and time; nothing else changes |
| BookingEngine.CheckedOutVisit | src/lib/storage.ts:270-292 | the same for `checked_out` and the check-out fields |
| PaymentLedger.NewPayment | src/lib/storage.ts:370-379 | the payment gets the new uuid and its donor's name, or no name when the donor is unknown; no other field is derived |
| PaymentLedger.NewInstallment | src/lib/storage.ts:393-398 | the installment gets the new uuid and its payment's uuid; every other field is the caller's |
| PaymentLedger.WithInstallment | src/lib/storage.ts:401-405 | the installment is appended; amount paid grows by its amount; remaining is total minus paid; status is `completed` exactly when nothing remains, `partial` otherwise; nothing else changes |
| PaymentLedger.InstallmentTotalAppend | src/lib/storage.ts:401-402 | the installments' total grows by the appended amount |
| PaymentLedger.InstallmentKeepsBalance | src/lib/storage.ts:401-405 | a payment whose amounts agree with its installments still does after another one |
| PaymentLedger.PaidBy | src/lib/storage.ts:412 | the total paid by a donor with no payments is 0, and it is never negative when no payment's amount paid is |
| PaymentLedger.PaidByAfterUpdate | src/lib/storage.ts:412 | replacing one payment changes a donor's total paid by that payment's difference |
| PaymentLedger.PaidByAppend | src/lib/storage.ts:366-367 | appending a payment adds its amount paid to its own donor's total only |
| PaymentLedger.Reconciled | src/lib/storage.ts:410-414 | only the first donor with the payment's donor uuid is updated, through updateDonor's rules, to a donation equal to all its payments' amounts paid |
| PaymentLedger.ReconciledDonation | src/lib/storage.ts:386-425 | after an installment, the donor's donation is its previous total paid plus the installment, and both its free rooms and free days follow the policy whenever that total changed and is non-zero |
| BillGenerator.DaysStarted | src/lib/storage.ts:468 | `Math.ceil(ms / DayMs)` is the number n with (n-1) days < ms ≤ n days |
| BillGenerator.Nights | src/lib/storage.ts:466-468 | nights ≥ 1; with a check-out date, the day difference (at least 1); with none, the days started between check-in and now, or 1 when now is not after check-in |
| BillGenerator.BillIdentity | src/lib/storage.ts:448-464 | a donor booking takes the name, mobile and address of the first donor with that uuid; a guest booking takes them from the first guest; an unknown donor or guest gives empty strings, with no fallback from donor to guest |
| BillGenerator.MakeBill | src/lib/storage.ts:470-502 | nights ≥ 1; room charges are the booking's total; no taxes; a free stay is discounted in full and costs 0, any other stay has no discount; discount plus total is the charges; payment method defaults to cash; an open stay is billed to today and now; the hotel's name, address and phone are the fixed ones and the room type is "Standard"; the other fields copy the booking |
| Notifications.NewNotification | src/lib/storage.ts:519-530 | the stored notification has the new uuid and is unread; the rest is as given |
| Notifications.WelcomeFor | src/lib/storage.ts:97-102 | the notice addDonor posts is of kind welcome, addressed to the new donor's uuid and no guest, under the donor's name, unread |
| Notifications.PaymentNoticeFor | src/lib/storage.ts:417-422 | the notice addInstallment posts is of kind payment_confirmation, addressed to the payment's donor and no guest, under the payment's donor name, or `Guest` when that is absent or empty, unread |
| Notifications.AllRead | src/lib/storage.ts:542-546 | the same notifications in the same order, each read |
| Notifications.AllReadLeavesNoneUnread | src/lib/storage.ts:542-546 | after marking all read, no notification is unread |
| Notifications.MarkOneRead | src/lib/storage.ts:532-540 | marking one unread notification read lowers the unread count by exactly one |
| Storage.RoomsAfterWalk | src/lib/storage.ts:210-220 | with no room numbers the inventory is untouched; otherwise an inventory is kept uuid for uuid, and an empty one becomes the eight seeded rooms |
| Storage.Store.constructor | src/lib/storage.ts:20-31 | an empty browser store: every collection empty, both counters at their default of 1000 |
| Storage.Store.DrawUuid | src/lib/storage.ts:5 | `uuidv4()` returns the current counter and moves it up by one |
| Storage.Store.GenerateDonorId | src/lib/storage.ts:35-40 | the counter goes up by exactly one and the code is `DNR` followed by the new value |
| Storage.Store.IsDonorIdUnique | src/lib/storage.ts:42-45 | true exactly when no stored donor other than the excluded one has the code |
| Storage.Store.AddDonor | src/lib/storage.ts:76-105 | the donor built by NewDonor under a fresh uuid is appended and the existing donors are kept; a welcome notification for it, under the next uuid, goes in front |
| Storage.Store.UpdateDonor | src/lib/storage.ts:107-129 | an unknown uuid returns null and leaves the donors unchanged; otherwise only the first matching donor is replaced by UpdatedDonor |
| Storage.Store.DeleteDonor | src/lib/storage.ts:131-137 | the donors become RemoveAll of the uuid; the answer is true exactly when a donor had it |
| Storage.Store.AddGuest | src/lib/storage.ts:150-160 | the guest is appended under a fresh uuid; the existing guests are kept |
| Storage.Store.LoadRooms | src/lib/storage.ts:297-314 | an empty inventory becomes the eight default rooms under the next eight uuids; a non-empty one is kept, and no uuid is drawn |
| Storage.Store.GetRooms | src/lib/storage.ts:297-314 | returns, and stores, SeedIfEmpty of the inventory; draws eight uuids only when it seeds |
| Storage.Store.AddRoom | src/lib/storage.ts:320-331 | the room is appended, under a fresh uuid, to the inventory getRooms loaded |
| Storage.Store.UpdateRoom | src/lib/storage.ts:333-345 | after loading, an unknown uuid changes nothing; otherwise only the first matching room is replaced by UpdatedRoom |
| Storage.Store.DeleteRoom | src/lib/storage.ts:347-353 | after loading, the rooms become RemoveAll of the uuid; the answer is true exactly when a room had it |
| Storage.Store.WalkRooms | src/lib/storage.ts:210-220 | the loop leaves the rooms as RoomsAfterWalk and the uuid counter as UuidsAfterWalk say |
| Storage.Store.AddBooking | src/lib/storage.ts:181-222 | the booking is appended under a fresh uuid; the donors become RecordVisit; the rooms are walked with OccupyFor |
| Storage.Store.UpdateBooking | src/lib/storage.ts:224-250 | an unknown uuid returns null and changes nothing; otherwise the first matching booking becomes UpdatedVisit and the donors become SyncVisitHistory of it |
| Storage.Store.CheckIn | src/lib/storage.ts:252-264 | updateBooking with CheckedInVisit; the rooms are not in its frame |
| Storage.Store.CheckOut | src/lib/storage.ts:266-293 | an unknown booking returns null and changes nothing, rooms included; otherwise the booking's rooms are walked with Release, and the booking becomes CheckedOutVisit and is synced into its donor's history |
| Storage.Store.AddPayment | src/lib/storage.ts:370-384 | the payment built by NewPayment under a fresh uuid is appended; the existing payments are kept |
| Storage.Store.AddInstallment | src/lib/storage.ts:386-425 | an unknown payment returns null and changes nothing; otherwise the first matching payment becomes WithInstallment, the donors become Reconciled against the new payments, and a payment confirmation goes in front of the notifications |
| Storage.Store.GenerateBillNumber | src/lib/storage.ts:434-440 | the counter goes up by exactly one and the number is `BILL-<date digits>-<new value>` |
| Storage.Store.GenerateBill | src/lib/storage.ts:442-510 | an unknown booking returns null and adds nothing; otherwise exactly one bill, MakeBill of the first matching booking under a fresh uuid and the next bill number, is appended to the existing bills |
| Storage.Store.AddNotification | src/lib/storage.ts:519-530 | NewNotification under a fresh uuid goes in front of the existing notifications |
| Storage.Store.MarkNotificationRead | src/lib/storage.ts:532-540 | true exactly when a notification has the uuid; then only the first such one becomes read; otherwise nothing changes |
| Storage.Store.MarkAllNotificationsRead | src/lib/storage.ts:542-546 | the loop leaves the notifications as AllRead of the old ones |
| Scenarios.SixtyThousandEntitlesTwoRooms | src/lib/storage.ts:47-52 | a donation of 60000 entitles 2 rooms and 6 days |
| Scenarios.TwoNightStay | src/lib/storage.ts:466-468 | 2024-01-01 to 2024-01-03 is two nights; a same-day stay is one |

## Left out

- `localStorage` and JSON (src/lib/storage.ts:20-31) are I/O. Every collection is a field, read and written whole. A missing or corrupt key reads as its default; that is what the constructor's initial state stands for.
- `uuidv4` is a counter. What is proved is only that a new uuid differs from the uuid of every record in the seven collections. It is not proved to differ from the uuids of the installments inside a payment, because `addPayment` keeps the caller's installments and their uuids as given (src/lib/storage.ts:370-379), and the source places no requirement on them.
- The `createdAt`, `updatedAt` and `generatedAt` timestamps are not modelled.
- `getDonors`, `getGuests`, `getBookings`, `getPayments` and `getNotifications` sort by `createdAt`, newest first, and `getBills` sorts by `generatedAt` (src/lib/storage.ts:56, 143, 174, 359, 516, 431). The sorted list is what gets written back. The model keeps insertion order for these collections, so "first match" means the first in insertion order there. `getRooms` does not sort (src/lib/storage.ts:297-314), so for rooms the model's order is the source's.
- Money is `int`. The source uses JavaScript numbers, so fractional amounts, rounding in floating-point sums (src/lib/storage.ts:402, 412) and `Math.floor` of a fractional donation (src/lib/storage.ts:49) are not represented.
- DonorLedger.UpdatedDonor: updateDonor writes the recomputed entitlement into the caller's own `updates` object and deletes its `qrCode` key (src/lib/storage.ts:115-116, 120). The model takes the patch as a value and returns a new one (`PreparedPatch`), so the caller never sees its patch change.
- Dates are whole day numbers and times are `HH:MM` strings passed in through `Clock`. Several things follow from that:
  - JavaScript `Date` parsing, time zones and float division are not modelled.
  - `Nights` divides the milliseconds since check-in that an open stay has run, rounding up.
  - An empty date string cannot be given. So `checkIn`/`checkOut` treat any date that is given as a manual edit.
- Message texts in notifications are not modelled. This covers `toLocaleString` and the welcome and payment wording (src/lib/storage.ts:101, 421). Nor are the WhatsApp link and templates (src/lib/storage.ts:550-568). A notification keeps its type, its donor or guest, the guest name and the read flag.
- These queries are not modelled, because they are aggregations over the same data. `getRoomByNumber` and `getDashboardStats` are not purely reads: both call `getRooms` (src/lib/storage.ts:317, 575), so on an empty inventory they would first seed it and draw eight uuids, as `LoadRooms` does. That write is not modelled for them.
  - `searchDonors`, `searchGuests` and `globalSearch`;
  - `getDashboardStats`;
  - `getDonorByDonorId`, `getRoomByNumber` and `getPaymentsByDonor`. The last is used only inside `PaidBy`.
- About patches (`Partial<T>`):
  - Patches carry no `id` key, so no patch renames a record.
  - A key explicitly set to `undefined` is not distinguished from an absent one.
  - Keys outside the record type are not modelled.
- Storage.Store.CheckIn, Storage.Store.CheckOut: the upcoming → checked_in → checked_out order is not enforced. The code does not enforce it either: either call applies to a booking in any status.
- Storage.Store.AddBooking: there is no validation of room availability, capacity or free-room balance, because the code does none.
- Storage.Store.AddPayment: nothing is derived. The code copies the caller's amounts and status and only adds the donor name. The initial status rule and the first installment are built by the page that calls it, which is outside this model.
- The React pages and components are not part of this model.
