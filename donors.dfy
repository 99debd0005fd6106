/** The donor ledger: the record addDonor stores, the merge updateDonor
    performs, and the donor-code uniqueness query (src/lib/storage.ts). */
module DonorLedger {
  import opened Records
  import opened Collections
  import opened Entitlement
  import opened Text

  /** `Partial<Donor>` as callers pass it to updateDonor: `Some` for each key
      present. The uuid `id` is not a key a caller may change here. */
  datatype DonorPatch = DonorPatch(
    donorId: Option<string>,
    name: Option<string>,
    mobile: Option<string>,
    address: Option<string>,
    aadharCard: Option<string>,
    modeOfPayment: Option<PaymentMethod>,
    photo: Option<string>,
    donationAmount: Option<int>,
    freeRoomsEntitled: Option<int>,
    freeDaysEntitled: Option<int>,
    freeRoomsUsed: Option<int>,
    freeDaysUsed: Option<int>,
    qrCode: Option<string>,
    visitHistory: Option<seq<Visit>>
  )

  const NoDonorChange: DonorPatch :=
    DonorPatch(None, None, None, None, None, None, None, None, None, None, None, None, None, None)

  /** The patch that sets only the donation amount, as addInstallment sends
      it. */
  function DonationPatch(amount: int): DonorPatch {
    NoDonorChange.(donationAmount := Some(amount))
  }

  /** The donor addDonor stores for the caller's `input`: a fresh uuid, the
      QR payload fixed once, usage counters at zero, an empty visit history,
      and the entitlement the caller gave unless it is zero, in which case
      the policy's. */
  function NewDonor(input: Donor, id: Uuid, instant: int): (d: Donor)
    ensures d.id == id && d.qrCode == Some(QrCode(input.donorId, instant))
    ensures d.freeRoomsUsed == 0 && d.freeDaysUsed == 0 && d.visitHistory == []
    ensures input.freeRoomsEntitled != 0 ==> d.freeRoomsEntitled == input.freeRoomsEntitled
    ensures input.freeRoomsEntitled == 0 ==>
      d.freeRoomsEntitled == CalculateFreeEntitlement(input.donationAmount).rooms
    ensures input.freeDaysEntitled != 0 ==> d.freeDaysEntitled == input.freeDaysEntitled
    ensures input.freeDaysEntitled == 0 ==>
      d.freeDaysEntitled == CalculateFreeEntitlement(input.donationAmount).days
    ensures d.donorId == input.donorId && d.name == input.name && d.mobile == input.mobile
    ensures d.address == input.address && d.aadharCard == input.aadharCard
    ensures d.modeOfPayment == input.modeOfPayment && d.photo == input.photo
    ensures d.donationAmount == input.donationAmount
  {
    var e := CalculateFreeEntitlement(input.donationAmount);
    input.(
      id := id,
      qrCode := Some(QrCode(input.donorId, instant)),
      freeRoomsEntitled := if input.freeRoomsEntitled != 0 then input.freeRoomsEntitled else e.rooms,
      freeDaysEntitled := if input.freeDaysEntitled != 0 then input.freeDaysEntitled else e.days,
      freeRoomsUsed := 0,
      freeDaysUsed := 0,
      visitHistory := [])
  }

  /** `{ ...d, ...p }`: every key present in the patch wins; the uuid is
      not a patch key, and an empty patch changes nothing. */
  function Spread(d: Donor, p: DonorPatch): (r: Donor)
    ensures r.id == d.id
    ensures p == NoDonorChange ==> r == d
    ensures r.qrCode == Override(p.qrCode, d.qrCode) && r.photo == Override(p.photo, d.photo)
    ensures r.donationAmount == OrElse(p.donationAmount, d.donationAmount)
  {
    d.(
      donorId := OrElse(p.donorId, d.donorId),
      name := OrElse(p.name, d.name),
      mobile := OrElse(p.mobile, d.mobile),
      address := OrElse(p.address, d.address),
      aadharCard := OrElse(p.aadharCard, d.aadharCard),
      modeOfPayment := OrElse(p.modeOfPayment, d.modeOfPayment),
      photo := Override(p.photo, d.photo),
      donationAmount := OrElse(p.donationAmount, d.donationAmount),
      freeRoomsEntitled := OrElse(p.freeRoomsEntitled, d.freeRoomsEntitled),
      freeDaysEntitled := OrElse(p.freeDaysEntitled, d.freeDaysEntitled),
      freeRoomsUsed := OrElse(p.freeRoomsUsed, d.freeRoomsUsed),
      freeDaysUsed := OrElse(p.freeDaysUsed, d.freeDaysUsed),
      qrCode := Override(p.qrCode, d.qrCode),
      visitHistory := OrElse(p.visitHistory, d.visitHistory))
  }

  /** `updates.donationAmount && updates.donationAmount !== stored`: the
      patch carries a non-zero donation that differs from the stored one. */
  predicate ChangesDonation(d: Donor, p: DonorPatch) {
    p.donationAmount.Some? && p.donationAmount.value != 0 && p.donationAmount.value != d.donationAmount
  }

  /** The patch after updateDonor's own edits: the entitlement is recomputed
      when the donation changes, and the `qrCode` key is deleted. */
  function PreparedPatch(d: Donor, p: DonorPatch): (q: DonorPatch)
    ensures q.qrCode.None?
    ensures ChangesDonation(d, p) ==>
      q.freeRoomsEntitled == Some(CalculateFreeEntitlement(p.donationAmount.value).rooms) &&
      q.freeDaysEntitled == Some(CalculateFreeEntitlement(p.donationAmount.value).days)
    ensures !ChangesDonation(d, p) ==> q == p.(qrCode := None)
    ensures q.(freeRoomsEntitled := p.freeRoomsEntitled, freeDaysEntitled := p.freeDaysEntitled,
               qrCode := p.qrCode) == p
  {
    var q := if ChangesDonation(d, p) then
      var e := CalculateFreeEntitlement(p.donationAmount.value);
      p.(freeRoomsEntitled := Some(e.rooms), freeDaysEntitled := Some(e.days))
    else p;
    q.(qrCode := None)
  }

  /** The donor record updateDonor writes back. The QR code and the uuid
      never change; a changed non-zero donation overrides any entitlement the
      caller passed with the policy's; every other key present in the patch
      is taken, every absent one kept. */
  function UpdatedDonor(d: Donor, p: DonorPatch): (r: Donor)
    ensures r.id == d.id && r.qrCode == d.qrCode
    ensures r.donationAmount == OrElse(p.donationAmount, d.donationAmount)
    ensures ChangesDonation(d, p) ==>
      r.freeRoomsEntitled == CalculateFreeEntitlement(r.donationAmount).rooms &&
      r.freeDaysEntitled == CalculateFreeEntitlement(r.donationAmount).days
    ensures !ChangesDonation(d, p) ==>
      r.freeRoomsEntitled == OrElse(p.freeRoomsEntitled, d.freeRoomsEntitled) &&
      r.freeDaysEntitled == OrElse(p.freeDaysEntitled, d.freeDaysEntitled)
    ensures r.donorId == OrElse(p.donorId, d.donorId) && r.name == OrElse(p.name, d.name)
    ensures r.mobile == OrElse(p.mobile, d.mobile) && r.address == OrElse(p.address, d.address)
    ensures r.aadharCard == OrElse(p.aadharCard, d.aadharCard)
    ensures r.modeOfPayment == OrElse(p.modeOfPayment, d.modeOfPayment)
    ensures r.photo == Override(p.photo, d.photo)
    ensures r.freeRoomsUsed == OrElse(p.freeRoomsUsed, d.freeRoomsUsed)
    ensures r.freeDaysUsed == OrElse(p.freeDaysUsed, d.freeDaysUsed)
    ensures r.visitHistory == OrElse(p.visitHistory, d.visitHistory)
  {
    Spread(d, PreparedPatch(d, p))
  }

  /** An empty patch leaves the donor as it was. */
  lemma EmptyUpdateKeepsDonor(d: Donor)
    ensures UpdatedDonor(d, NoDonorChange) == d
  {
  }

  /** Re-sending a patch that carries no entitlement gives the same donor. */
  lemma UpdateIdempotent(d: Donor, p: DonorPatch)
    requires p.freeRoomsEntitled.None? && p.freeDaysEntitled.None?
    ensures UpdatedDonor(UpdatedDonor(d, p), p) == UpdatedDonor(d, p)
  {
  }

  /** With entitlement keys in the patch it is not: the first call replaces
      them with the policy's (the donation changed), the second keeps the
      caller's (the donation no longer changes). */
  lemma UpdateNotIdempotentWithEntitlement(d: Donor)
    requires d.donationAmount == 0
    ensures var p := NoDonorChange.(donationAmount := Some(29000), freeRoomsEntitled := Some(5));
      UpdatedDonor(d, p).freeRoomsEntitled == 1 &&
      UpdatedDonor(UpdatedDonor(d, p), p).freeRoomsEntitled == 5
  {
  }

  /** getDonorById: the first donor with this uuid, if any. */
  function DonorById(donors: seq<Donor>, id: Uuid): (r: Option<Donor>)
    ensures r.Some? ==> r.value.id == id && r.value in donors
    ensures r.None? <==> forall j :: 0 <= j < |donors| ==> donors[j].id != id
    ensures r.Some? ==> exists j :: 0 <= j < |donors| && r.value == donors[j] && IsFirst(donors, DonorKey, j)
  {
    match IndexOf(donors, DonorKey, id)
    case None => None
    case Some(i) => Some(donors[i])
  }

  /** isDonorIdUnique: no donor other than `excludeId` holds this code. */
  function DonorIdUnique(donors: seq<Donor>, donorId: string, excludeId: Option<Uuid>): (b: bool)
    ensures b <==> forall i :: 0 <= i < |donors| ==>
      !(donors[i].donorId == donorId && Some(donors[i].id) != excludeId)
  {
    if |donors| == 0 then true
    else if donors[0].donorId == donorId && Some(donors[0].id) != excludeId then false
    else DonorIdUnique(donors[1..], donorId, excludeId)
  }
}
