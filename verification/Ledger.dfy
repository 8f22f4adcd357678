/**
 Contracts and payments: the balances of app/services/payment_service.py and the
 reviews of app/services/payment_approval_service.py. Money is whole cents; a
 payment's id is its position in the table.
 */
module Ledger {
  import opened Prelude

  /** The three values shared by the payment status and the approval status. */
  datatype Verdict = PENDING | APPROVED | REJECTED

  datatype ContractStatus = ACTIVE | COMPLETED | PAUSED | CANCELLED

  datatype Contract = Contract(id: int, userId: Option<int>, referenceCode: string, totalAmount: int,
                               dailyAmount: int, status: ContractStatus)

  datatype Payment = Payment(contractId: int, amount: int, date: int, status: Verdict, approvalStatus: Verdict,
                             requiresManualReview: bool)

  // ---- sums over payments -------------------------------------------------------

  function Sum(payments: seq<Payment>, f: Payment -> int): int
  {
    if payments == [] then 0 else Sum(payments[..|payments| - 1], f) + f(payments[|payments| - 1])
  }

  lemma {:induction false} SumAgrees(payments: seq<Payment>, f: Payment -> int, g: Payment -> int)
    requires forall p | p in payments :: f(p) == g(p)
    ensures Sum(payments, f) == Sum(payments, g)
  {
    if payments != [] {
      SumAgrees(payments[..|payments| - 1], f, g);
    }
  }

  lemma {:induction false} SumAdds(payments: seq<Payment>, f: Payment -> int, g: Payment -> int)
    ensures Sum(payments, p => f(p) + g(p)) == Sum(payments, f) + Sum(payments, g)
  {
    if payments != [] {
      SumAdds(payments[..|payments| - 1], f, g);
    }
  }

  lemma {:induction false} SumNonNegative(payments: seq<Payment>, f: Payment -> int)
    requires forall p | p in payments :: f(p) >= 0
    ensures Sum(payments, f) >= 0
  {
    if payments != [] {
      SumNonNegative(payments[..|payments| - 1], f);
    }
  }

  lemma {:induction false} SumAppend(payments: seq<Payment>, more: seq<Payment>, f: Payment -> int)
    ensures Sum(payments + more, f) == Sum(payments, f) + Sum(more, f)
  {
    if more == [] {
      assert payments + more == payments;
    } else {
      assert (payments + more)[..|payments + more| - 1] == payments + more[..|more| - 1];
      SumAppend(payments, more[..|more| - 1], f);
    }
  }

  function Amount(p: Payment): int
  {
    p.amount
  }

  // ---- the two readings of "received" ---------------------------------------------

  function PaidTo(contractId: int): Payment -> int
  {
    (p: Payment) => if p.contractId == contractId && p.status == APPROVED then p.amount else 0
  }

  /** calculate_total_paid: per contract, by `status`. */
  function TotalPaid(payments: seq<Payment>, contractId: int): int
  {
    Sum(payments, PaidTo(contractId))
  }

  /** calculate_remaining_amount: never negative. */
  function Remaining(payments: seq<Payment>, totalAmount: int, contractId: int): int
  {
    Max(totalAmount - TotalPaid(payments, contractId), 0)
  }

  /** The join of a payment with its contract gives this user. */
  predicate BelongsTo(contracts: seq<Contract>, p: Payment, userId: int)
  {
    exists k | 0 <= k < |contracts| :: contracts[k].id == p.contractId && contracts[k].userId == Some(userId)
  }

  function IfOwned(contracts: seq<Contract>, userId: int, p: Payment, counts: bool): int
  {
    if counts && BelongsTo(contracts, p, userId) then p.amount else 0
  }

  /** calculate_total_received_for_user: per user, by `approval_status`. */
  function Received(contracts: seq<Contract>, payments: seq<Payment>, userId: int): int
  {
    Sum(payments, (p: Payment) => IfOwned(contracts, userId, p, p.approvalStatus == APPROVED))
  }

  /** calculate_pending_review_amount_for_user. */
  function PendingReview(contracts: seq<Contract>, payments: seq<Payment>, userId: int): int
  {
    Sum(payments, (p: Payment) => IfOwned(contracts, userId, p, p.requiresManualReview && p.approvalStatus == PENDING))
  }

  function Rejected(contracts: seq<Contract>, payments: seq<Payment>, userId: int): int
  {
    Sum(payments, (p: Payment) => IfOwned(contracts, userId, p, p.approvalStatus == REJECTED))
  }

  function AllMoney(contracts: seq<Contract>, payments: seq<Payment>, userId: int): int
  {
    Sum(payments, (p: Payment) => IfOwned(contracts, userId, p, true))
  }

  /** The total paid on the user's contracts among the first n. */
  function PaidOnContracts(contracts: seq<Contract>, payments: seq<Payment>, userId: int, n: nat): int
    requires n <= |contracts|
  {
    if n == 0 then 0
    else PaidOnContracts(contracts, payments, userId, n - 1)
         + (if contracts[n - 1].userId == Some(userId) then TotalPaid(payments, contracts[n - 1].id) else 0)
  }

  // ---- well-formed ledgers ----------------------------------------------------------

  ghost predicate DistinctContracts(contracts: seq<Contract>)
  {
    forall i, j | 0 <= i < j < |contracts| :: contracts[i].id != contracts[j].id
  }

  predicate HasContract(contracts: seq<Contract>, id: int)
  {
    exists k | 0 <= k < |contracts| :: contracts[k].id == id
  }

  /** The two status columns agree, and what is PENDING waits for a human. */
  predicate Coherent(p: Payment)
  {
    p.status == p.approvalStatus && (p.status == PENDING ==> p.requiresManualReview) && p.amount > 0
  }

  ghost predicate LedgerInv(contracts: seq<Contract>, payments: seq<Payment>)
  {
    && DistinctContracts(contracts)
    && forall p | p in payments :: Coherent(p) && HasContract(contracts, p.contractId)
  }

  // ---- operations -------------------------------------------------------------------

  datatype Op =
    | AddConfirmed(contractId: int, amount: int, date: int)
    | AddForReview(contractId: int, amount: int, date: int)
    | Approve(paymentId: int, userId: int)
    | Reject(paymentId: int, userId: int)

  function Confirmed(contractId: int, amount: int, date: int): Payment
  {
    Payment(contractId, amount, date, APPROVED, APPROVED, false)
  }

  function ForReview(contractId: int, amount: int, date: int): Payment
  {
    Payment(contractId, amount, date, PENDING, PENDING, true)
  }

  /** The payment exists and the user owns its contract. */
  predicate MayReview(contracts: seq<Contract>, payments: seq<Payment>, paymentId: int, userId: int)
  {
    0 <= paymentId < |payments| && BelongsTo(contracts, payments[paymentId], userId)
  }

  function Reviewed(contracts: seq<Contract>, payments: seq<Payment>, paymentId: int, userId: int,
                    verdict: Verdict): seq<Payment>
  {
    if MayReview(contracts, payments, paymentId, userId) then
      payments[paymentId := payments[paymentId].(status := verdict, approvalStatus := verdict)]
    else payments
  }

  predicate ValidOp(contracts: seq<Contract>, op: Op)
  {
    op.AddConfirmed? || op.AddForReview? ==> op.amount > 0 && HasContract(contracts, op.contractId)
  }

  function ApplyOp(contracts: seq<Contract>, payments: seq<Payment>, op: Op): seq<Payment>
  {
    match op
    case AddConfirmed(contractId, amount, date) => payments + [Confirmed(contractId, amount, date)]
    case AddForReview(contractId, amount, date) => payments + [ForReview(contractId, amount, date)]
    case Approve(paymentId, userId) => Reviewed(contracts, payments, paymentId, userId, APPROVED)
    case Reject(paymentId, userId) => Reviewed(contracts, payments, paymentId, userId, REJECTED)
  }

  function ApplyOps(contracts: seq<Contract>, payments: seq<Payment>, ops: seq<Op>): seq<Payment>
  {
    if ops == [] then payments
    else ApplyOp(contracts, ApplyOps(contracts, payments, ops[..|ops| - 1]), ops[|ops| - 1])
  }

  lemma OpKeepsInv(contracts: seq<Contract>, payments: seq<Payment>, op: Op)
    requires LedgerInv(contracts, payments) && ValidOp(contracts, op)
    ensures LedgerInv(contracts, ApplyOp(contracts, payments, op))
  {
  }

  /** Whatever is created, approved and rejected, the ledger stays coherent. */
  lemma {:induction false} OpsKeepInv(contracts: seq<Contract>, payments: seq<Payment>, ops: seq<Op>)
    requires LedgerInv(contracts, payments) && forall op | op in ops :: ValidOp(contracts, op)
    ensures LedgerInv(contracts, ApplyOps(contracts, payments, ops))
  {
    if ops != [] {
      OpsKeepInv(contracts, payments, ops[..|ops| - 1]);
      OpKeepsInv(contracts, ApplyOps(contracts, payments, ops[..|ops| - 1]), ops[|ops| - 1]);
    }
  }

  // ---- cross-service agreement ---------------------------------------------------------

  /** One payment's part in the per-contract totals of the user's first n contracts. */
  function PartInContracts(contracts: seq<Contract>, userId: int, n: nat, p: Payment): int
    requires n <= |contracts|
  {
    if n == 0 then 0
    else PartInContracts(contracts, userId, n - 1, p)
         + (if contracts[n - 1].userId == Some(userId) then PaidTo(contracts[n - 1].id)(p) else 0)
  }

  lemma {:induction false} ExchangeSums(contracts: seq<Contract>, payments: seq<Payment>, userId: int, n: nat)
    requires n <= |contracts|
    ensures PaidOnContracts(contracts, payments, userId, n) ==
            Sum(payments, (p: Payment) => PartInContracts(contracts, userId, n, p))
  {
    var part := (p: Payment) => PartInContracts(contracts, userId, n, p);
    if n == 0 {
      SumZero(payments, part);
    } else {
      ExchangeSums(contracts, payments, userId, n - 1);
      var before := (p: Payment) => PartInContracts(contracts, userId, n - 1, p);
      if contracts[n - 1].userId == Some(userId) {
        var own := PaidTo(contracts[n - 1].id);
        SumAdds(payments, before, own);
        SumAgrees(payments, part, p => before(p) + own(p));
      } else {
        SumAgrees(payments, part, before);
      }
    }
  }

  lemma {:induction false} SumZero(payments: seq<Payment>, f: Payment -> int)
    requires forall p | p in payments :: f(p) == 0
    ensures Sum(payments, f) == 0
  {
    if payments != [] {
      SumZero(payments[..|payments| - 1], f);
    }
  }

  lemma {:induction false} PartIsOwnAmount(contracts: seq<Contract>, userId: int, n: nat, p: Payment)
    requires n <= |contracts| && DistinctContracts(contracts)
    ensures PartInContracts(contracts, userId, n, p) ==
            if p.status == APPROVED
               && (exists k | 0 <= k < n :: contracts[k].id == p.contractId && contracts[k].userId == Some(userId))
            then p.amount else 0
  {
    if n > 0 {
      PartIsOwnAmount(contracts, userId, n - 1, p);
      if contracts[n - 1].id == p.contractId && contracts[n - 1].userId == Some(userId) {
        assert forall k | 0 <= k < n - 1 :: contracts[k].id != p.contractId;
      }
    }
  }

  /**
   What the user is told to have received (by approval_status, per user) is what the
   balances count as paid (by status, per contract), summed over the user's contracts.
   */
  lemma ReceivedIsPaidOnContracts(contracts: seq<Contract>, payments: seq<Payment>, userId: int)
    requires LedgerInv(contracts, payments)
    ensures Received(contracts, payments, userId) == PaidOnContracts(contracts, payments, userId, |contracts|)
  {
    ExchangeSums(contracts, payments, userId, |contracts|);
    forall p | p in payments
      ensures IfOwned(contracts, userId, p, p.approvalStatus == APPROVED)
              == PartInContracts(contracts, userId, |contracts|, p)
    {
      PartIsOwnAmount(contracts, userId, |contracts|, p);
    }
    SumAgrees(payments,
      (p: Payment) => IfOwned(contracts, userId, p, p.approvalStatus == APPROVED),
      (p: Payment) => PartInContracts(contracts, userId, |contracts|, p));
  }

  /** All of a user's payment money is received, pending review or rejected, and nothing is counted twice. */
  lemma MoneySplits(contracts: seq<Contract>, payments: seq<Payment>, userId: int)
    requires LedgerInv(contracts, payments)
    ensures AllMoney(contracts, payments, userId) ==
            Received(contracts, payments, userId) + PendingReview(contracts, payments, userId)
                + Rejected(contracts, payments, userId)
  {
    var received := (p: Payment) => IfOwned(contracts, userId, p, p.approvalStatus == APPROVED);
    var pending := (p: Payment) => IfOwned(contracts, userId, p, p.requiresManualReview && p.approvalStatus == PENDING);
    var rejected := (p: Payment) => IfOwned(contracts, userId, p, p.approvalStatus == REJECTED);
    var two := (p: Payment) => received(p) + pending(p);
    SumAdds(payments, received, pending);
    SumAdds(payments, two, rejected);
    SumAgrees(payments, (p: Payment) => IfOwned(contracts, userId, p, true), p => two(p) + rejected(p));
  }

  // ---- is a rejection final? --------------------------------------------------------------

  /** The step approves payment `id` on behalf of its owner. */
  predicate ApprovesIt(contracts: seq<Contract>, p: Payment, id: int, op: Op)
  {
    op.Approve? && op.paymentId == id && BelongsTo(contracts, p, op.userId)
  }

  lemma {:induction false} PaymentsStay(contracts: seq<Contract>, payments: seq<Payment>, ops: seq<Op>, id: nat)
    requires id < |payments|
    ensures var after := ApplyOps(contracts, payments, ops);
            id < |after| && after[id].contractId == payments[id].contractId && after[id].amount == payments[id].amount
  {
    if ops != [] {
      PaymentsStay(contracts, payments, ops[..|ops| - 1], id);
    }
  }

  /**
   A rejected payment keeps its verdict through a history exactly if no step of the
   history approves it: approval does not look at the verdict it overwrites.
   */
  lemma {:induction false} RejectionStandsIffNeverApproved(contracts: seq<Contract>, payments: seq<Payment>,
                                                           ops: seq<Op>, id: nat)
    requires id < |payments| && payments[id].status == payments[id].approvalStatus == REJECTED
    ensures (forall n | 0 <= n <= |ops| :: StatusAfter(contracts, payments, ops, n, id) == REJECTED)
            <==> (forall op | op in ops :: !ApprovesIt(contracts, payments[id], id, op))
    decreases |ops|
  {
    if ops == [] {
      assert ops[..0] == [];
    } else {
      var init, op := ops[..|ops| - 1], ops[|ops| - 1];
      RejectionStandsIffNeverApproved(contracts, payments, init, id);
      PaymentsStay(contracts, payments, init, id);
      assert ops == init + [op] && ops[..|ops|] == ops && ops[..|init|] == init == init[..|init|];
      forall n | 0 <= n <= |init|
        ensures StatusAfter(contracts, payments, ops, n, id) == StatusAfter(contracts, payments, init, n, id)
      {
        assert ops[..n] == init[..n];
      }
      var before := ApplyOps(contracts, payments, init);
      assert StatusAfter(contracts, payments, ops, |ops|, id) == ApplyOp(contracts, before, op)[id].status;
      if before[id].status == REJECTED {
        assert ApplyOp(contracts, before, op)[id].status == REJECTED <==> !ApprovesIt(contracts, payments[id], id, op);
      } else {
        assert StatusAfter(contracts, payments, ops, |init|, id) != REJECTED;
      }
    }
  }

  /** For instance: rejected by its owner, then approved by its owner, and received after all. */
  lemma RejectedThenApproved()
    ensures var contracts := [Contract(1, Some(7), "A1", 100, 10, ACTIVE)];
            var rejected := ApplyOps(contracts, [ForReview(1, 30, 0)], [Reject(0, 7)]);
            && rejected[0].status == REJECTED && Received(contracts, rejected, 7) == 0
            && ApplyOps(contracts, rejected, [Approve(0, 7)])[0].status == APPROVED
            && Received(contracts, ApplyOps(contracts, rejected, [Approve(0, 7)]), 7) == 30
  {
    var contracts, start := [Contract(1, Some(7), "A1", 100, 10, ACTIVE)], [ForReview(1, 30, 0)];
    assert contracts[0].id == 1 && contracts[0].userId == Some(7);
    assert BelongsTo(contracts, start[0], 7);
    assert [Reject(0, 7)][..0] == [] && [Approve(0, 7)][..0] == [];
    var rejected := ApplyOp(contracts, start, Reject(0, 7));
    assert ApplyOps(contracts, start, [Reject(0, 7)]) == rejected;
    assert BelongsTo(contracts, rejected[0], 7);
    var approved := ApplyOp(contracts, rejected, Approve(0, 7));
    assert ApplyOps(contracts, rejected, [Approve(0, 7)]) == approved;
    assert rejected[..0] == [] && approved[..0] == [];
    assert BelongsTo(contracts, approved[0], 7);
  }

  /** The status of payment `id` after the first n operations. */
  function StatusAfter(contracts: seq<Contract>, payments: seq<Payment>, ops: seq<Op>, n: nat, id: nat): Verdict
    requires n <= |ops| && id < |payments|
  {
    PaymentsStay(contracts, payments, ops[..n], id);
    ApplyOps(contracts, payments, ops[..n])[id].status
  }

  // ---- the tables as an object --------------------------------------------------------------

  class PaymentLedger {
    const contracts: seq<Contract>
    var payments: seq<Payment>

    ghost predicate Valid()
      reads this
    {
      LedgerInv(contracts, payments)
    }

    constructor (contracts: seq<Contract>)
      requires DistinctContracts(contracts)
      ensures Valid() && this.contracts == contracts && payments == []
    {
      this.contracts := contracts;
      payments := [];
    }

    /** Stores any payment; the ledger stays coherent exactly if the payment is. */
    method CreatePayment(payment: Payment) returns (id: nat)
      modifies this
      ensures payments == old(payments) + [payment] && id == |old(payments)|
      ensures old(Valid()) ==> (Valid() <==> Coherent(payment) && HasContract(contracts, payment.contractId))
    {
      id := |payments|;
      payments := payments + [payment];
      assert payments[id] in payments;
    }

    method ApprovePayment(paymentId: int, userId: int) returns (found: Option<Payment>)
      modifies this
      ensures payments == ApplyOp(contracts, old(payments), Approve(paymentId, userId))
      ensures found == if MayReview(contracts, old(payments), paymentId, userId) then Some(payments[paymentId])
              else None
      ensures old(Valid()) ==> Valid()
    {
      if Valid() {
        OpKeepsInv(contracts, payments, Approve(paymentId, userId));
      }
      if !MayReview(contracts, payments, paymentId, userId) {
        return None;
      }
      payments := payments[paymentId := payments[paymentId].(status := APPROVED)];
      payments := payments[paymentId := payments[paymentId].(approvalStatus := APPROVED)];
      found := Some(payments[paymentId]);
    }

    method RejectPayment(paymentId: int, userId: int) returns (found: Option<Payment>)
      modifies this
      ensures payments == ApplyOp(contracts, old(payments), Reject(paymentId, userId))
      ensures found == if MayReview(contracts, old(payments), paymentId, userId) then Some(payments[paymentId])
              else None
      ensures old(Valid()) ==> Valid()
    {
      if Valid() {
        OpKeepsInv(contracts, payments, Reject(paymentId, userId));
      }
      if !MayReview(contracts, payments, paymentId, userId) {
        return None;
      }
      payments := payments[paymentId := payments[paymentId].(approvalStatus := REJECTED)];
      payments := payments[paymentId := payments[paymentId].(status := REJECTED)];
      found := Some(payments[paymentId]);
    }
  }
}
