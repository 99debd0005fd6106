/** The payment ledger: a donor's pledge, the installments paid against it,
    its derived balance and status, and the donor's donation total
    re-summed from all of the donor's payments (src/lib/storage.ts). */
module PaymentLedger {
  import opened Records
  import opened Collections
  import opened DonorLedger
  import opened Entitlement

  /** The payment addPayment stores: a fresh uuid and the name of the donor
      it names (none if the donor is unknown, whatever the caller passed);
      amounts, installments and status exactly as the caller gave them. */
  function NewPayment(input: Payment, id: Uuid, donor: Option<Donor>): (p: Payment)
    ensures p.id == id
    ensures donor.Some? ==> p.donorName == Some(donor.value.name)
    ensures donor.None? ==> p.donorName.None?
    ensures p == input.(id := id, donorName := p.donorName)
  {
    input.(id := id, donorName := if donor.Some? then Some(donor.value.name) else None)
  }

  /** The installment addInstallment appends: a fresh uuid, the payment's
      uuid, the rest as given. */
  function NewInstallment(input: Installment, id: Uuid, paymentId: Uuid): (i: Installment)
    ensures i.id == id && i.paymentId == paymentId
    ensures i.amount == input.amount && i.installmentNumber == input.installmentNumber
    ensures i == input.(id := i.id, paymentId := i.paymentId)
  {
    input.(id := id, paymentId := paymentId)
  }

  /** The payment after an installment: appended at the end, paid amount
      raised by its amount, the balance recomputed from the pledge, and the
      status completed exactly when nothing remains (never pending again). */
  function WithInstallment(p: Payment, inst: Installment): (r: Payment)
    ensures r.installments == p.installments + [inst]
    ensures r.amountPaid == p.amountPaid + inst.amount
    ensures r.remainingAmount == r.totalAmount - r.amountPaid
    ensures r.status == Completed <==> r.remainingAmount <= 0
    ensures r.status == Partial <==> r.remainingAmount > 0
    ensures r == p.(installments := r.installments, amountPaid := r.amountPaid,
                    remainingAmount := r.remainingAmount, status := r.status)
  {
    var paid := p.amountPaid + inst.amount;
    var remaining := p.totalAmount - paid;
    p.(installments := p.installments + [inst],
       amountPaid := paid,
       remainingAmount := remaining,
       status := if remaining <= 0 then Completed else Partial)
  }

  /** The sum of the installments' amounts. */
  function InstallmentTotal(xs: seq<Installment>): int {
    if |xs| == 0 then 0 else xs[0].amount + InstallmentTotal(xs[1..])
  }

  lemma {:induction false} InstallmentTotalAppend(xs: seq<Installment>, x: Installment)
    ensures InstallmentTotal(xs + [x]) == InstallmentTotal(xs) + x.amount
  {
    if |xs| > 0 {
      assert (xs + [x])[1..] == xs[1..] + [x];
      InstallmentTotalAppend(xs[1..], x);
    }
  }

  /** The ledger of a payment balances: what was paid is the sum of its
      installments, and what remains is the pledge less what was paid. */
  ghost predicate Balanced(p: Payment) {
    p.amountPaid == InstallmentTotal(p.installments) &&
    p.remainingAmount == p.totalAmount - p.amountPaid
  }

  /** Recording an installment keeps a balanced ledger balanced. */
  lemma InstallmentKeepsBalance(p: Payment, inst: Installment)
    requires Balanced(p)
    ensures Balanced(WithInstallment(p, inst))
  {
    InstallmentTotalAppend(p.installments, inst);
  }

  /** Everything a donor paid: the sum of `amountPaid` over the payments that
      name the donor (`getPaymentsByDonor(id).reduce(...)`). */
  function PaidBy(ps: seq<Payment>, donorId: Uuid): (t: int)
    ensures (forall k :: 0 <= k < |ps| ==> ps[k].donorId != donorId) ==> t == 0
    ensures (forall k :: 0 <= k < |ps| ==> ps[k].amountPaid >= 0) ==> t >= 0
  {
    if |ps| == 0 then 0
    else (if ps[0].donorId == donorId then ps[0].amountPaid else 0) + PaidBy(ps[1..], donorId)
  }

  /** Replacing one payment by one for the same donor moves that donor's
      total by the difference and no other donor's total. */
  lemma {:induction false} PaidByAfterUpdate(ps: seq<Payment>, i: int, q: Payment, donorId: Uuid)
    requires 0 <= i < |ps| && q.donorId == ps[i].donorId
    ensures PaidBy(ps[i := q], donorId) ==
      PaidBy(ps, donorId) + (if q.donorId == donorId then q.amountPaid - ps[i].amountPaid else 0)
  {
    if i > 0 {
      assert ps[i := q][1..] == ps[1..][i - 1 := q];
      PaidByAfterUpdate(ps[1..], i - 1, q, donorId);
    }
  }

  /** Appending a payment adds its paid amount to its donor's total. */
  lemma {:induction false} PaidByAppend(ps: seq<Payment>, p: Payment, donorId: Uuid)
    ensures PaidBy(ps + [p], donorId) == PaidBy(ps, donorId) + (if p.donorId == donorId then p.amountPaid else 0)
  {
    if |ps| > 0 {
      assert (ps + [p])[1..] == ps[1..] + [p];
      PaidByAppend(ps[1..], p, donorId);
    }
  }

  /** The donors after addInstallment's reconciliation: the donor with this
      uuid (the first one) is updated to a donation equal to all it paid,
      through updateDonor's rules; everyone else is untouched. */
  function Reconciled(donors: seq<Donor>, payments: seq<Payment>, donorId: Uuid): (r: seq<Donor>)
    ensures |r| == |donors|
    ensures forall j :: 0 <= j < |donors| ==> r[j].id == donors[j].id
    ensures forall j :: 0 <= j < |donors| ==>
      r[j] == if donors[j].id == donorId && IsFirst(donors, DonorKey, j)
              then UpdatedDonor(donors[j], DonationPatch(PaidBy(payments, donorId)))
              else donors[j]
  {
    match IndexOf(donors, DonorKey, donorId)
    case None => donors
    case Some(j) => donors[j := UpdatedDonor(donors[j], DonationPatch(PaidBy(payments, donorId)))]
  }

  /** After an installment of `inst` on payment `i`, the paying donor's
      donation is its previous total paid plus the installment, and its
      entitlement follows the policy whenever that total changed and is not
      zero. */
  lemma ReconciledDonation(donors: seq<Donor>, ps: seq<Payment>, i: int, inst: Installment, j: int)
    requires 0 <= i < |ps| && 0 <= j < |donors|
    requires donors[j].id == ps[i].donorId && IsFirst(donors, DonorKey, j)
    ensures var after := ps[i := WithInstallment(ps[i], inst)];
      var d := Reconciled(donors, after, ps[i].donorId)[j];
      d.donationAmount == PaidBy(ps, ps[i].donorId) + inst.amount &&
      (d.donationAmount != 0 && d.donationAmount != donors[j].donationAmount ==>
        d.freeRoomsEntitled == CalculateFreeEntitlement(d.donationAmount).rooms &&
        d.freeDaysEntitled == CalculateFreeEntitlement(d.donationAmount).days)
  {
    PaidByAfterUpdate(ps, i, WithInstallment(ps[i], inst), ps[i].donorId);
  }
}
