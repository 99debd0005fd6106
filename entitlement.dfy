/** The free-stay policy: one free room per 29,000 donated, three free days
    per free room (src/lib/storage.ts, calculateFreeEntitlement). */
module Entitlement {

  const DonationPerFreeRoom: int := 29000
  const DaysPerFreeRoom: int := 3

  datatype Entitlement = Entitlement(rooms: int, days: int)

  /** `Math.floor(amount / 29000)` rooms and three days per room. Money is
      integral, and Dafny's `/` by a positive divisor is floor division, so
      the bracket below is the whole meaning of `Math.floor`. */
  function CalculateFreeEntitlement(donationAmount: int): (e: Entitlement)
    ensures e.rooms * DonationPerFreeRoom <= donationAmount < (e.rooms + 1) * DonationPerFreeRoom
    ensures e.days == DaysPerFreeRoom * e.rooms
  {
    var rooms := donationAmount / DonationPerFreeRoom;
    Entitlement(rooms, rooms * DaysPerFreeRoom)
  }

  /** Giving more never earns less. */
  lemma EntitlementMonotonic(a: int, b: int)
    requires a <= b
    ensures CalculateFreeEntitlement(a).rooms <= CalculateFreeEntitlement(b).rooms
    ensures CalculateFreeEntitlement(a).days <= CalculateFreeEntitlement(b).days
  {
  }

  /** A non-negative donation earns a non-negative entitlement, and one
      below 29,000 earns nothing. */
  lemma EntitlementBounds(a: int)
    requires a >= 0
    ensures CalculateFreeEntitlement(a).rooms >= 0
    ensures a < DonationPerFreeRoom <==> CalculateFreeEntitlement(a).rooms == 0
  {
  }
}
