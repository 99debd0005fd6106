/** Worked scenarios: one donor's life in the guest house, from registration
    to bill, traced through the store. */
module Scenarios {
  import opened Records
  import opened Collections
  import opened Entitlement
  import opened RoomInventory
  import opened BookingEngine
  import opened PaymentLedger
  import opened BillGenerator
  import opened Storage

  /** 2024-01-01, as days since the epoch. */
  const NewYear: Day := 19723

  function Morning(): Clock {
    Clock(NewYear * DayMs + 36000000, NewYear, "20240101", "10:00")
  }

  /** A donation of 60000 entitles two free rooms and six free days. */
  lemma SixtyThousandEntitlesTwoRooms()
    ensures CalculateFreeEntitlement(60000) == Entitlement(2, 6)
  {
  }

  /** A stay from 2024-01-01 to 2024-01-03 is billed for two nights; a
      same-day stay for one. */
  lemma TwoNightStay()
    ensures Nights(NewYear, Some(NewYear + 2), 0) == 2
    ensures Nights(NewYear, Some(NewYear), 0) == 1
  {
  }

  function Asha(): Donor {
    Donor(0, "DNR1001", "Asha", "9000000000", "Pune", "1234", Cash, None,
          60000, 0, 0, 0, 0, None, [])
  }

  /** A two-room free stay for donor `d`, checking out two days later. */
  function FreeStay(d: Uuid): Visit {
    Visit(0, Some(d), None, DonorGuest, NewYear, "10:00", None, None, None, None,
          None, None, Some(NewYear + 2), ["101", "102"], 2, Upcoming, 0, 0, 0, None, true)
  }

  /** A new donor of 60000 gets two rooms and six days and a welcome; a free
      two-room stay charges two free rooms to the donor. */
  method RegistrationAndFreeStay()
  {
    var s := new Store();
    var donor := s.AddDonor(Asha(), Morning());
    SixtyThousandEntitlesTwoRooms();
    assert donor.freeRoomsEntitled == 2 && donor.freeDaysEntitled == 6;
    assert s.donors == [donor] && s.notifications[0].kind == Welcome;
    var booking := s.AddBooking(FreeStay(donor.id));
    assert BookedBy([donor], booking, 0);
    assert s.donors[0] == RecordedVisit(donor, booking);
    assert s.donors[0].freeRoomsUsed == 2 && s.donors[0].visitHistory == [booking];
  }

  /** On an empty inventory, booking room 101 seeds the defaults and occupies
      it; checking out releases it. */
  method RoomLifecycle()
  {
    var s := new Store();
    var booking := s.AddBooking(FreeStay(7));
    assert |s.rooms| == SeedSize;
    assert Listed(DefaultRooms(1), booking.roomNumbers, 0);
    ChangeListedAt(DefaultRooms(1), booking.roomNumbers, OccupyFor(booking), 0);
    assert s.rooms[0].status == Occupied && s.rooms[0].currentGuestId == Some(7);
    var occupied := s.rooms;
    var out := s.CheckOut(booking.id, Some(NewYear + 2), None, Morning());
    assert out.Some? && out.value.status == CheckedOut;
    assert out.value.checkOutManuallyEdited == Some(true);
    assert s.rooms == ChangeListed(occupied, booking.roomNumbers, Release);
    assert Listed(occupied, booking.roomNumbers, 0);
    ChangeListedAt(occupied, booking.roomNumbers, Release, 0);
    assert s.rooms[0].status == Available && s.rooms[0].currentGuestId.None?;
  }

  /** A pledge of 10000: 4000 leaves it partial, 6000 more completes it. */
  method PledgeInTwoInstallments()
  {
    var s := new Store();
    var pledge := s.AddPayment(Payment(0, 42, None, 10000, 0, 10000, 2, [], Pending));
    assert pledge.donorName.None?;
    var first := s.AddInstallment(pledge.id, Installment(0, 0, 1, 4000, NewYear, Upi, None, None, None));
    assert first.Some?;
    assert s.payments[0].amountPaid == 4000 && s.payments[0].status == Partial;
    var second := s.AddInstallment(pledge.id, Installment(0, 0, 2, 6000, NewYear, Cash, None, None, None));
    assert second.Some?;
    assert s.payments[0].remainingAmount == 0 && s.payments[0].status == Completed;
  }

  /** A free stay recorded from 2024-01-01 to 2024-01-03 is billed for two
      nights and charges nothing; the bill counter moves to 1001. */
  method BillForFreeStay()
  {
    var s := new Store();
    var booking := s.AddBooking(FreeStay(7).(checkOutDate := Some(NewYear + 2)));
    var bill := s.GenerateBill(booking.id, Morning());
    assert bill.Some? && bill.value.numberOfNights == 2;
    assert bill.value.totalAmount == 0 && bill.value.discount == bill.value.roomCharges;
    assert s.billCounter == 1001 && s.bills == [bill.value];
  }
}
