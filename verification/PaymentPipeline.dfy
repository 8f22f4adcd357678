/**
 The payment workflow (app/agents/payment_workflow.py): nodes that change one state
 object in a fixed order, and the payments and receipts they leave behind.
 */
module PaymentPipeline {
  import opened Prelude
  import opened Ledger
  import opened PaymentAllocation
  import opened ReferenceMatching

  datatype Detection = Detection(amount: Option<int>, confidence: real)

  datatype Receipt = Receipt(contractId: int, paymentId: Option<int>, amount: int, previousBalance: int,
                             newBalance: int)

  const MIN_CONFIDENCE := 0.80

  class AgentState {
    const message: string
    const resolvedContracts: seq<Contract>
    const paymentDate: int // the first pending date, or today when there is none
    var detection: Option<Detection>
    var contractId: Option<int>
    var contractIds: seq<int>
    var allocations: seq<Allocation>
    var requiresApproval: bool
    var paymentId: Option<int>
    var receipts: seq<Receipt>

    constructor (message: string, contractId: Option<int>, resolvedContracts: seq<Contract>, paymentDate: int)
      ensures this.message == message && this.contractId == contractId && this.resolvedContracts == resolvedContracts
      ensures this.paymentDate == paymentDate && detection.None? && allocations == [] && receipts == []
              && !requiresApproval
    {
      this.message, this.contractId, this.resolvedContracts, this.paymentDate := message, contractId,
          resolvedContracts, paymentDate;
      detection, contractIds, allocations, requiresApproval := None, [], [], false;
      paymentId, receipts := None, [];
    }
  }

  /** The schema's bounds on what detection returns. */
  predicate ValidDetection(detection: Option<Detection>)
  {
    detection.Some? ==> 0.0 <= detection.value.confidence <= 1.0
                        && (detection.value.amount.Some? ==> detection.value.amount.value > 0)
  }

  predicate Confident(detection: Option<Detection>)
  {
    detection.Some? && detection.value.confidence >= MIN_CONFIDENCE
  }

  function DetectedAmount(detection: Option<Detection>): Option<int>
  {
    if detection.Some? then detection.value.amount else None
  }

  /** The contracts a run may touch: the candidate pool, or the explicit contract when there is no pool. */
  predicate MayTouch(pool: seq<Contract>, explicit: Option<int>, id: int)
  {
    if pool == [] then explicit == Some(id) else HasContract(pool, id)
  }

  /** The pool and the explicit contract come from the contracts table. */
  ghost predicate FromTable(contracts: seq<Contract>, pool: seq<Contract>, explicit: Option<int>)
  {
    && DistinctContracts(pool) && PositiveDailies(pool)
    && (forall c | c in pool :: c in contracts)
    && (explicit.Some? ==> HasContract(contracts, explicit.value))
  }

  /** The contract a message settles on, and whether its references call for a human. */
  ghost function Resolution(message: string, pool: seq<Contract>, explicit: Option<int>): (Option<int>, bool)
  {
    var matched := Matched(Lower(message), pool);
    if pool == [] then (explicit, false)
    else if |matched| == 1 then (Some(matched[0]), false)
    else if |matched| > 1 || NamesUnknownReference(Lower(message), pool) then (None, true)
    else (if |pool| == 1 then Some(pool[0].id) else None, false)
  }

  /** The reasons for which a run leaves the payment to a human, and no others. */
  ghost predicate NeedsHuman(payments: seq<Payment>, detection: Option<Detection>, message: string,
                             pool: seq<Contract>, explicit: Option<int>)
    requires PositiveDailies(pool)
  {
    var (contractId, unclear) := Resolution(message, pool, explicit);
    || !Confident(detection)
    || unclear
    || (DetectedAmount(detection).Some?
        && Decided(payments, DetectedAmount(detection).value, pool, contractId).requiresApproval)
  }

  /**
   By what the run is given: money lands on a contract that owes nothing exactly if there
   is no pool and the contract was passed explicitly, whatever the message says; or the
   message names that contract and no other; or it names none, mentions no unknown code,
   and the contract is alone in the pool.
   */
  lemma PaidUpContractIsReachedByName(payments: seq<Payment>, amount: int, message: string, pool: seq<Contract>,
                                      explicit: Option<int>, id: int)
    requires DistinctContracts(pool) && PositiveDailies(pool) && PaidUp(payments, pool, id)
    ensures var allocations := Decided(payments, amount, pool, Resolution(message, pool, explicit).0).allocations;
            var matched := Matched(Lower(message), pool);
            (exists k | 0 <= k < |allocations| :: allocations[k].contractId == id)
            <==> || (pool == [] && explicit == Some(id))
                 || matched == [id]
                 || (matched == [] && !NamesUnknownReference(Lower(message), pool) && |pool| == 1 && pool[0].id == id)
  {
    PaidUpContractIsReachedOnlyByReference(payments, amount, pool, Resolution(message, pool, explicit).0, id);
    var matched := Matched(Lower(message), pool);
    assert |matched| == 1 ==> matched == [matched[0]];
  }

  /** For instance: 40 on a contract of 100 paid in full, passed without a pool, is confirmed for every message. */
  lemma ExplicitPaidUpContractGetsForty(message: string)
    ensures var table, paid := [Contract(1, Some(7), "A1", 100, 10, ACTIVE)], [Confirmed(1, 100, 0)];
            var detection := Some(Detection(Some(40), 0.9));
            && Remaining(paid, 100, 1) == 0 && FromTable(table, [], Some(1))
            && !NeedsHuman(paid, detection, message, [], Some(1))
            && Resolution(message, [], Some(1)).0 == Some(1)
            && Decided(paid, 40, [], Some(1)).allocations == [Allocation(1, 40, None, None)]
  {
    var table, paid := [Contract(1, Some(7), "A1", 100, 10, ACTIVE)], [Confirmed(1, 100, 0)];
    assert paid[..0] == [] && Sum(paid, PaidTo(1)) == Sum(paid[..0], PaidTo(1)) + 100;
    assert table[0].id == 1;
    assert Matched(Lower(message), []) == [];
  }

  // ---- what a run may leave behind ----------------------------------------------------

  ghost predicate NothingCreated(before: seq<Payment>, after: seq<Payment>)
  {
    after == before
  }

  /** One payment of the full amount on contract `id`, waiting for a human. */
  ghost predicate OneForReview(before: seq<Payment>, after: seq<Payment>, amount: int, paymentDate: int,
                               pool: seq<Contract>,
                               explicit: Option<int>, id: int)
  {
    MayTouch(pool, explicit, id) && after == before + [ForReview(id, amount, paymentDate)]
  }

  /** Confirmed payments on distinct contracts that add up to the amount. */
  ghost predicate SplitConfirmed(before: seq<Payment>, after: seq<Payment>, amount: int, pool: seq<Contract>,
                                 explicit: Option<int>)
  {
    && |before| < |after| && before <= after
    && (forall i | |before| <= i < |after| ::
          && after[i].status == after[i].approvalStatus == APPROVED && !after[i].requiresManualReview
          && after[i].amount > 0 && MayTouch(pool, explicit, after[i].contractId))
    && (forall i, j | |before| <= i < j < |after| :: after[i].contractId != after[j].contractId)
    && Sum(after[|before|..], Amount) == amount
  }

  function ConfirmedFor(allocations: seq<Allocation>, paymentDate: int): (payments: seq<Payment>)
    ensures |payments| == |allocations|
    ensures forall k | 0 <= k < |payments| ::
              payments[k] == Confirmed(allocations[k].contractId, allocations[k].amount, paymentDate)
  {
    if allocations == [] then []
    else
      var last := allocations[|allocations| - 1];
      ConfirmedFor(allocations[..|allocations| - 1], paymentDate)
          + [Confirmed(last.contractId, last.amount, paymentDate)]
  }

  lemma ConfirmedOneMore(allocations: seq<Allocation>, k: nat, paymentDate: int, first: nat)
    requires k < |allocations|
    ensures ConfirmedFor(allocations[..k + 1], paymentDate)
            == ConfirmedFor(allocations[..k], paymentDate)
               + [Confirmed(allocations[k].contractId, allocations[k].amount, paymentDate)]
    ensures Linked(allocations[..k + 1], first) == Linked(allocations[..k], first)
            + [allocations[k].(paymentId := Some(first + k))]
  {
    assert allocations[..k + 1][..k] == allocations[..k];
  }

  lemma {:induction false} ConfirmedSum(allocations: seq<Allocation>, paymentDate: int)
    ensures Sum(ConfirmedFor(allocations, paymentDate), Amount) == Total(allocations)
  {
    if allocations != [] {
      ConfirmedSum(allocations[..|allocations| - 1], paymentDate);
      var payments := ConfirmedFor(allocations, paymentDate);
      assert payments[..|payments| - 1] == ConfirmedFor(allocations[..|allocations| - 1], paymentDate);
    }
  }

  /** The money new confirmed payments bring to one contract. */
  lemma {:induction false} PaidByAllocations(allocations: seq<Allocation>, paymentDate: int, id: int)
    requires DistinctTargets(allocations)
    ensures forall k | 0 <= k < |allocations| :: allocations[k].contractId == id ==>
              TotalPaid(ConfirmedFor(allocations, paymentDate), id) == allocations[k].amount
    ensures (forall k | 0 <= k < |allocations| :: allocations[k].contractId != id) ==>
              TotalPaid(ConfirmedFor(allocations, paymentDate), id) == 0
  {
    if allocations != [] {
      var init := allocations[..|allocations| - 1];
      PaidByAllocations(init, paymentDate, id);
      var payments := ConfirmedFor(allocations, paymentDate);
      assert payments[..|payments| - 1] == ConfirmedFor(init, paymentDate);
      if allocations[|allocations| - 1].contractId == id {
        assert forall k | 0 <= k < |init| :: init[k].contractId != id;
      }
    }
  }

  // ---- receipts ------------------------------------------------------------------------

  /** A receipt against the balance `before` the run: what it says, and when that is the truth. */
  ghost predicate ReceiptIsRight(r: Receipt, totalAmount: int, paidBefore: int)
  {
    && r.newBalance == Max(totalAmount - paidBefore - r.amount, 0)
    && r.previousBalance == Max(totalAmount - paidBefore, r.amount)
    && (r.previousBalance == Max(totalAmount - paidBefore, 0) <==> r.amount <= totalAmount - paidBefore)
  }

  function ContractFrom(contracts: seq<Contract>, id: int, i: nat): (c: Option<Contract>)
    requires i <= |contracts|
    ensures c.Some? ==> c.value in contracts && c.value.id == id
    ensures c.None? <==> forall k | i <= k < |contracts| :: contracts[k].id != id
    decreases |contracts| - i
  {
    if i == |contracts| then None
    else if contracts[i].id == id then Some(contracts[i])
    else ContractFrom(contracts, id, i + 1)
  }

  function ContractAt(contracts: seq<Contract>, id: int): (c: Option<Contract>)
    ensures c.Some? <==> HasContract(contracts, id)
    ensures c.Some? ==> c.value in contracts && c.value.id == id
  {
    ContractFrom(contracts, id, 0)
  }

  function ReceiptFor(contracts: seq<Contract>, payments: seq<Payment>, a: Allocation): (r: Receipt)
    ensures r.contractId == a.contractId && r.amount == a.amount && r.paymentId == a.paymentId
  {
    var contract := ContractAt(contracts, a.contractId);
    var newBalance := if contract.Some? then Remaining(payments, contract.value.totalAmount, a.contractId) else 0;
    Receipt(a.contractId, a.paymentId, a.amount, newBalance + a.amount, newBalance)
  }

  /** The allocations once payment rows first, first + 1, ... exist for them. */
  function Linked(allocations: seq<Allocation>, first: nat): (linked: seq<Allocation>)
    ensures |linked| == |allocations|
    ensures forall k | 0 <= k < |linked| :: linked[k] == allocations[k].(paymentId := Some(first + k))
  {
    if allocations == [] then []
    else
      var n := |allocations| - 1;
      Linked(allocations[..n], first) + [allocations[n].(paymentId := Some(first + n))]
  }

  function ReceiptsFor(contracts: seq<Contract>, payments: seq<Payment>,
                       allocations: seq<Allocation>): (receipts: seq<Receipt>)
    ensures |receipts| == |allocations|
    ensures forall k | 0 <= k < |receipts| :: receipts[k] == ReceiptFor(contracts, payments, allocations[k])
  {
    if allocations == [] then []
    else
      var n := |allocations| - 1;
      ReceiptsFor(contracts, payments, allocations[..n]) + [ReceiptFor(contracts, payments, allocations[n])]
  }

  /** The payments after the approval node. */
  function AfterApproval(before: seq<Payment>, requiresApproval: bool, contractId: Option<int>, amount: Option<int>,
                         paymentDate: int): seq<Payment>
  {
    if requiresApproval && contractId.Some?
       && amount.Some? then before + [ForReview(contractId.value, amount.value, paymentDate)] else before
  }

  /** The payments after the creation node. */
  function AfterCreation(before: seq<Payment>, requiresApproval: bool, allocations: seq<Allocation>,
                         paymentDate: int): seq<Payment>
  {
    if requiresApproval then before else before + ConfirmedFor(allocations, paymentDate)
  }

  /** The allocations after the creation node; `first` is the number of the first new payment. */
  function LinkedAfter(requiresApproval: bool, allocations: seq<Allocation>, first: nat): seq<Allocation>
  {
    if requiresApproval then allocations else Linked(allocations, first)
  }

  /** The receipts after the receipt node. */
  function ReceiptsAfter(contracts: seq<Contract>, payments: seq<Payment>, requiresApproval: bool,
                         allocations: seq<Allocation>, before: seq<Receipt>): seq<Receipt>
  {
    if requiresApproval || allocations == [] then before else ReceiptsFor(contracts, payments, allocations)
  }

  lemma ReceiptReconstructsBalance(contracts: seq<Contract>, before: seq<Payment>, allocations: seq<Allocation>,
                                   paymentDate: int, k: nat)
    requires DistinctTargets(allocations) && k < |allocations| && allocations[k].amount > 0
    requires HasContract(contracts, allocations[k].contractId)
    ensures var a := allocations[k];
            ReceiptIsRight(ReceiptFor(contracts, before + ConfirmedFor(allocations, paymentDate), a),
                           ContractAt(contracts, a.contractId).value.totalAmount, TotalPaid(before, a.contractId))
  {
    var id := allocations[k].contractId;
    PaidByAllocations(allocations, paymentDate, id);
    SumAppend(before, ConfirmedFor(allocations, paymentDate), PaidTo(id));
  }

  // ---- the nodes -----------------------------------------------------------------------

  class PaymentWorkflow {
    const ledger: PaymentLedger
    const allocationService: PaymentAllocationService

    constructor (ledger: PaymentLedger)
      ensures this.ledger == ledger && Ready()
    {
      this.ledger := ledger;
      allocationService := new PaymentAllocationService(ledger);
    }

    predicate Ready()
    {
      allocationService.ledger == ledger
    }

    /** The only node that may clear the approval flag. */
    method CheckConfidence(state: AgentState)
      modifies state`requiresApproval
      ensures state.requiresApproval == !Confident(state.detection)
    {
      if state.detection.None? {
        state.requiresApproval := true;
        return;
      }
      if state.detection.value.confidence < MIN_CONFIDENCE {
        state.requiresApproval := true;
      } else {
        state.requiresApproval := false;
      }
    }

    method ResolveContract(state: AgentState)
      modifies state`contractId, state`contractIds, state`requiresApproval
      ensures var (contractId, unclear) := Resolution(state.message, state.resolvedContracts, old(state.contractId));
              state.contractId == contractId && state.requiresApproval == (old(state.requiresApproval) || unclear)
      ensures state.contractId.Some? ==>
                MayTouch(state.resolvedContracts, old(state.contractId), state.contractId.value)
      ensures var matched := Matched(Lower(state.message), state.resolvedContracts);
              state.contractIds == if state.resolvedContracts == [] then old(state.contractIds)
                                   else if matched != [] then matched
                                   else if state.contractId.Some? then [state.contractId.value] else []
    {
      var available := state.resolvedContracts;
      if available == [] {
        return;
      }
      var message := Lower(state.message);
      var matchedIds := Matched(message, available);
      if |matchedIds| == 1 {
        assert matchedIds[0] in matchedIds;
        state.contractIds, state.contractId := matchedIds, Some(matchedIds[0]);
        return;
      }
      if |matchedIds| > 1 {
        state.contractIds, state.contractId, state.requiresApproval := matchedIds, None, true;
        return;
      }
      state.contractIds, state.contractId := [], None;
      var unknown := MentionsUnknownReference(message, available);
      if unknown {
        state.requiresApproval := true;
        return;
      }
      if |available| == 1 {
        state.contractId, state.contractIds := Some(available[0].id), [available[0].id];
      }
    }

    method AllocatePayment(state: AgentState)
      requires Ready() && DistinctContracts(state.resolvedContracts) && PositiveDailies(state.resolvedContracts)
      requires ValidDetection(state.detection) && state.allocations == []
      modifies state`allocations, state`requiresApproval
      ensures var amount := DetectedAmount(state.detection);
              if old(state.requiresApproval) || amount.None? then
                state.allocations == [] && state.requiresApproval == old(state.requiresApproval)
              else
                var decision := Decided(ledger.payments, amount.value, state.resolvedContracts, state.contractId);
                state.allocations == decision.allocations && state.requiresApproval == decision.requiresApproval
    {
      var amount := DetectedAmount(state.detection);
      if amount.None? {
        return;
      }
      if state.requiresApproval {
        return;
      }
      var decision := allocationService.Allocate(amount, state.resolvedContracts, state.contractId);
      state.allocations := decision.allocations;
      if decision.requiresApproval {
        state.requiresApproval := true;
      }
    }

    method CreateApproval(state: AgentState)
      requires ledger.Valid() && ValidDetection(state.detection)
      requires state.contractId.Some? ==> HasContract(ledger.contracts, state.contractId.value)
      modifies ledger
      ensures ledger.Valid()
      ensures ledger.payments == AfterApproval(old(ledger.payments), state.requiresApproval, state.contractId,
                                               DetectedAmount(state.detection), state.paymentDate)
    {
      if !state.requiresApproval {
        return;
      }
      if state.contractId.None? {
        return;
      }
      var amount := DetectedAmount(state.detection);
      if amount.None? {
        return;
      }
      var id := ledger.CreatePayment(ForReview(state.contractId.value, amount.value, state.paymentDate));
    }

    method CreatePayments(state: AgentState)
      requires ledger.Valid()
      requires forall k | 0 <= k < |state.allocations| ::
                 state.allocations[k].amount > 0 && HasContract(ledger.contracts, state.allocations[k].contractId)
      modifies ledger, state`allocations, state`paymentId
      ensures ledger.Valid()
      ensures ledger.payments == AfterCreation(old(ledger.payments), state.requiresApproval, old(state.allocations),
                                               state.paymentDate)
      ensures state.allocations == LinkedAfter(state.requiresApproval, old(state.allocations), |old(ledger.payments)|)
      ensures state.paymentId == if state.requiresApproval || old(state.allocations) == [] then old(state.paymentId)
                                 else Some(|old(ledger.payments)|)
    {
      if state.requiresApproval {
        return;
      }
      if state.allocations == [] {
        return;
      }
      var allocations := state.allocations;
      ghost var before := ledger.payments;
      var linked: seq<Allocation> := [];
      var createdIds: seq<int> := [];
      for k := 0 to |allocations|
        invariant ledger.Valid() && |createdIds| == k && (k > 0 ==> createdIds[0] == |before|)
        invariant ledger.payments == before + ConfirmedFor(allocations[..k], state.paymentDate)
        invariant linked == Linked(allocations[..k], |before|)
      {
        ConfirmedOneMore(allocations, k, state.paymentDate, |before|);
        var id := ledger.CreatePayment(Confirmed(allocations[k].contractId, allocations[k].amount, state.paymentDate));
        createdIds := createdIds + [id];
        linked := linked + [allocations[k].(paymentId := Some(id))];
      }
      assert allocations[..|allocations|] == allocations;
      state.allocations, state.paymentId := linked, Some(createdIds[0]);
    }

    method IssueReceipts(state: AgentState)
      modifies state`receipts
      ensures state.receipts == ReceiptsAfter(ledger.contracts, ledger.payments, state.requiresApproval,
                                              state.allocations, old(state.receipts))
    {
      if state.requiresApproval {
        return;
      }
      if state.allocations == [] {
        return;
      }
      var receipts: seq<Receipt> := [];
      for k := 0 to |state.allocations|
        invariant |receipts| == k
        invariant forall j | 0 <= j < k ::
                    receipts[j] == ReceiptFor(ledger.contracts, ledger.payments, state.allocations[j])
      {
        var allocation := state.allocations[k];
        var contract := ContractAt(ledger.contracts, allocation.contractId);
        var newBalance := 0;
        if contract.Some? {
          newBalance := Remaining(ledger.payments, contract.value.totalAmount, allocation.contractId);
        }
        var previousBalance := newBalance + allocation.amount;
        receipts := receipts + [Receipt(allocation.contractId, allocation.paymentId, allocation.amount,
                                        previousBalance, newBalance)];
      }
      state.receipts := receipts;
    }

    /**
     One run on a fresh state. Either a human is needed, and then at most one PENDING
     payment of the full amount exists, or the amount is confirmed in full on distinct
     contracts of the pool with receipts that state their balances.
     */
    method Process(state: AgentState, detection: Option<Detection>)
      requires Ready() && ledger.Valid() && ValidDetection(detection)
      requires FromTable(ledger.contracts, state.resolvedContracts, state.contractId)
      requires state.allocations == [] && state.receipts == []
      modifies state, ledger
      ensures ledger.Valid() && state.detection == detection
      ensures RunOutcome(ledger.contracts, old(ledger.payments), ledger.payments, detection, state.message,
                         state.resolvedContracts,
                         old(state.contractId), state.paymentDate, state.requiresApproval, state.contractId,
                             state.receipts)
    {
      state.detection := detection;
      DecideOnPayment(state);
      ghost var allocations := state.allocations;
      RecordPayment(state);
      RunEnds(ledger.contracts, old(ledger.payments), ledger.payments, detection, state.message,
              state.resolvedContracts,
              old(state.contractId), state.paymentDate, state.requiresApproval, state.contractId, allocations,
                  state.receipts);
    }

    /** The nodes that only decide. */
    method DecideOnPayment(state: AgentState)
      requires Ready() && ValidDetection(state.detection) && state.allocations == []
      requires FromTable(ledger.contracts, state.resolvedContracts, state.contractId)
      modifies state`requiresApproval, state`contractId, state`contractIds, state`allocations
      ensures Decisions(ledger.payments, state.detection, state.message, state.resolvedContracts, old(state.contractId),
                        state.requiresApproval, state.contractId, state.allocations)
      ensures state.contractId.Some? ==> HasContract(ledger.contracts, state.contractId.value)
      ensures forall k | 0 <= k < |state.allocations| ::
                state.allocations[k].amount > 0 && HasContract(ledger.contracts, state.allocations[k].contractId)
    {
      CheckConfidence(state);
      ResolveContract(state);
      AllocatePayment(state);
      AllocationsFit(ledger.contracts, ledger.payments, state.detection, state.message, state.resolvedContracts,
                     old(state.contractId),
                     state.requiresApproval, state.contractId, state.allocations);
    }

    /** The nodes that write: a payment for review or confirmed payments with their receipts. */
    method RecordPayment(state: AgentState)
      requires ledger.Valid() && ValidDetection(state.detection)
      requires state.contractId.Some? ==> HasContract(ledger.contracts, state.contractId.value)
      requires forall k | 0 <= k < |state.allocations| ::
                 state.allocations[k].amount > 0 && HasContract(ledger.contracts, state.allocations[k].contractId)
      modifies ledger, state`allocations, state`paymentId, state`receipts
      ensures ledger.Valid()
      ensures var reviewed := AfterApproval(old(ledger.payments), state.requiresApproval, state.contractId,
                                            DetectedAmount(state.detection), state.paymentDate);
              && ledger.payments == AfterCreation(reviewed, state.requiresApproval, old(state.allocations),
                                                  state.paymentDate)
              && state.allocations == LinkedAfter(state.requiresApproval, old(state.allocations), |reviewed|)
              && state.receipts == ReceiptsAfter(ledger.contracts, ledger.payments, state.requiresApproval,
                                                 state.allocations, old(state.receipts))
    {
      CreateApproval(state);
      CreatePayments(state);
      IssueReceipts(state);
    }
  }

  /** How the first three nodes leave the state: the contract, the flag and the allocations. */
  ghost predicate Decisions(payments: seq<Payment>, detection: Option<Detection>, message: string,
                            pool: seq<Contract>, explicit: Option<int>,
                            requiresApproval: bool, resolved: Option<int>, allocations: seq<Allocation>)
    requires PositiveDailies(pool)
  {
    && resolved == Resolution(message, pool, explicit).0
    && (resolved.Some? ==> MayTouch(pool, explicit, resolved.value))
    && requiresApproval == NeedsHuman(payments, detection, message, pool, explicit)
    && allocations == if requiresApproval || DetectedAmount(detection).None? then []
                      else Decided(payments, DetectedAmount(detection).value, pool, resolved).allocations
  }

  /** Every contract the later nodes write to exists, and every amount is positive. */
  lemma AllocationsFit(contracts: seq<Contract>, payments: seq<Payment>, detection: Option<Detection>,
                       message: string, pool: seq<Contract>,
                       explicit: Option<int>, requiresApproval: bool, resolved: Option<int>,
                           allocations: seq<Allocation>)
    requires FromTable(contracts, pool, explicit) && ValidDetection(detection)
    requires resolved == Resolution(message, pool, explicit).0
             && (resolved.Some? ==> MayTouch(pool, explicit, resolved.value))
    requires var amount := DetectedAmount(detection);
             var unclear := !Confident(detection) || Resolution(message, pool, explicit).1;
             if unclear || amount.None? then allocations == [] && requiresApproval == unclear
             else
               var decision := Decided(payments, amount.value, pool, resolved);
               allocations == decision.allocations && requiresApproval == decision.requiresApproval
    ensures Decisions(payments, detection, message, pool, explicit, requiresApproval, resolved, allocations)
    ensures resolved.Some? ==> HasContract(contracts, resolved.value)
    ensures forall k | 0 <= k < |allocations| ::
              && allocations[k].amount > 0
              && MayTouch(pool, explicit, allocations[k].contractId)
                  && HasContract(contracts, allocations[k].contractId)
  {
    TouchableContractsExist(contracts, pool, explicit);
    if DetectedAmount(detection).Some? {
      DecidedIsSplit(payments, DetectedAmount(detection).value, pool, resolved);
      DecisionIsTouchable(payments, DetectedAmount(detection).value, pool, explicit, resolved);
    }
  }

  /** From what each node did to the outcome of the run. */
  lemma RunEnds(contracts: seq<Contract>, before: seq<Payment>, after: seq<Payment>, detection: Option<Detection>,
                message: string,
                pool: seq<Contract>, explicit: Option<int>, paymentDate: int, requiresApproval: bool,
                    resolved: Option<int>,
                allocations: seq<Allocation>, receipts: seq<Receipt>)
    requires FromTable(contracts, pool, explicit) && ValidDetection(detection)
    requires Decisions(before, detection, message, pool, explicit, requiresApproval, resolved, allocations)
    requires var reviewed := AfterApproval(before, requiresApproval, resolved, DetectedAmount(detection), paymentDate);
             && after == AfterCreation(reviewed, requiresApproval, allocations, paymentDate)
             && receipts == ReceiptsAfter(contracts, after, requiresApproval,
                                          LinkedAfter(requiresApproval, allocations, |reviewed|), [])
    ensures RunOutcome(contracts, before, after, detection, message, pool, explicit, paymentDate, requiresApproval,
                       resolved, receipts)
  {
    if DetectedAmount(detection).Some? && !requiresApproval {
      TouchableContractsExist(contracts, pool, explicit);
      DecisionIsTouchable(before, DetectedAmount(detection).value, pool, explicit, resolved);
      SplitIsConfirmed(before, allocations, paymentDate, DetectedAmount(detection).value, pool, explicit);
      RunReceiptsAreRight(contracts, before, allocations, paymentDate);
    }
  }

  /** Whatever is allocated without a human is a full split over contracts the run may touch. */
  lemma DecisionIsTouchable(payments: seq<Payment>, amount: int, pool: seq<Contract>, explicit: Option<int>,
                            contractId: Option<int>)
    requires DistinctContracts(pool) && PositiveDailies(pool) && amount > 0
    requires contractId.Some? ==> MayTouch(pool, explicit, contractId.value)
    ensures var decision := Decided(payments, amount, pool, contractId);
            !decision.requiresApproval ==>
              && decision.allocations != [] && IsSplit(decision.allocations, amount)
              && forall k | 0 <= k < |decision.allocations| ::
                   decision.allocations[k].amount > 0 && MayTouch(pool, explicit, decision.allocations[k].contractId)
  {
    var decision := Decided(payments, amount, pool, contractId);
    DecidedIsSplit(payments, amount, pool, contractId);
    EligibleSubset(payments, pool);
    if contractId.Some? {
      SingleIsSplit(contractId.value, amount, pool);
    } else if !decision.requiresApproval {
      forall k | 0 <= k < |decision.allocations| ensures MayTouch(pool, explicit, decision.allocations[k].contractId) {
        var eligible := Eligible(payments, pool);
        var j :| 0 <= j < |eligible| && eligible[j].id == decision.allocations[k].contractId;
        assert eligible[j] in pool;
      }
    }
  }

  /**
   Everything a run guarantees, in terms of the payments before and after it. `resolved`
   is the contract the run ended up on, if any.
   */
  ghost predicate RunOutcome(contracts: seq<Contract>, before: seq<Payment>, after: seq<Payment>,
                             detection: Option<Detection>,
                             message: string, pool: seq<Contract>, explicit: Option<int>, paymentDate: int,
                             requiresApproval: bool, resolved: Option<int>, receipts: seq<Receipt>)
    requires PositiveDailies(pool)
  {
    && requiresApproval == NeedsHuman(before, detection, message, pool, explicit)
    && resolved == Resolution(message, pool, explicit).0
    && (requiresApproval ==> receipts == [])
    && match DetectedAmount(detection)
       case None => NothingCreated(before, after)
       case Some(amount) =>
         if !requiresApproval then
           && after == before + ConfirmedFor(Decided(before, amount, pool, resolved).allocations, paymentDate)
           && SplitConfirmed(before, after, amount, pool, explicit)
           && ReceiptsAreRight(contracts, before, after, receipts)
         else if resolved.Some? then OneForReview(before, after, amount, paymentDate, pool, explicit, resolved.value)
         else NothingCreated(before, after)
  }

  /** The receipt names payment number n and states its contract's balances before and after. */
  ghost predicate ReceiptMatches(contracts: seq<Contract>, before: seq<Payment>, after: seq<Payment>, r: Receipt,
                                 n: nat)
    requires n < |after|
  {
    && r.contractId == after[n].contractId && r.amount == after[n].amount && r.paymentId == Some(n)
    && HasContract(contracts, r.contractId)
    && ReceiptIsRight(r, ContractAt(contracts, r.contractId).value.totalAmount, TotalPaid(before, r.contractId))
  }

  /** One receipt per new payment, in order. */
  ghost predicate ReceiptsAreRight(contracts: seq<Contract>, before: seq<Payment>, after: seq<Payment>,
                                   receipts: seq<Receipt>)
  {
    && |after| == |before| + |receipts|
    && forall k | 0 <= k < |receipts| :: ReceiptMatches(contracts, before, after, receipts[k], |before| + k)
  }

  /** Linking an allocation to its payment changes nothing on its receipt but the number. */
  lemma LinkedReceipt(contracts: seq<Contract>, payments: seq<Payment>, a: Allocation, n: nat)
    ensures ReceiptFor(contracts, payments, a.(paymentId := Some(n)))
            == ReceiptFor(contracts, payments, a).(paymentId := Some(n))
  {
  }

  lemma LinkedAt(allocations: seq<Allocation>, first: nat, k: nat)
    requires k < |allocations|
    ensures Linked(allocations, first)[k] == allocations[k].(paymentId := Some(first + k))
  {
  }

  /** Receipt number k is the one of allocation number k, with the number of its payment. */
  lemma ReceiptNumber(contracts: seq<Contract>, payments: seq<Payment>, allocations: seq<Allocation>, first: nat,
                      k: nat)
    requires k < |allocations|
    ensures ReceiptsFor(contracts, payments, Linked(allocations, first))[k]
            == ReceiptFor(contracts, payments, allocations[k]).(paymentId := Some(first + k))
  {
    LinkedAt(allocations, first, k);
    LinkedReceipt(contracts, payments, allocations[k], first + k);
  }

  lemma RightReceiptMatches(contracts: seq<Contract>, before: seq<Payment>, after: seq<Payment>, r: Receipt, n: nat)
    requires n < |after| && r.contractId == after[n].contractId && r.amount == after[n].amount
             && HasContract(contracts, r.contractId)
    requires ReceiptIsRight(r, ContractAt(contracts, r.contractId).value.totalAmount, TotalPaid(before, r.contractId))
    ensures ReceiptMatches(contracts, before, after, r.(paymentId := Some(n)), n)
  {
  }

  lemma OneReceiptMatches(contracts: seq<Contract>, before: seq<Payment>, allocations: seq<Allocation>,
                          paymentDate: int, after: seq<Payment>, k: nat)
    requires DistinctTargets(allocations) && k < |allocations|
    requires allocations[k].amount > 0 && HasContract(contracts, allocations[k].contractId)
    requires after == before + ConfirmedFor(allocations, paymentDate)
    ensures ReceiptMatches(contracts, before, after,
                           ReceiptFor(contracts, after, allocations[k]).(paymentId := Some(|before| + k)), |before| + k)
  {
    ReceiptReconstructsBalance(contracts, before, allocations, paymentDate, k);
    assert after[|before| + k] == ConfirmedFor(allocations, paymentDate)[k];
    RightReceiptMatches(contracts, before, after, ReceiptFor(contracts, after, allocations[k]), |before| + k);
  }

  lemma RunReceiptsAreRight(contracts: seq<Contract>, before: seq<Payment>, allocations: seq<Allocation>,
                            paymentDate: int)
    requires DistinctTargets(allocations)
    requires forall k | 0 <= k < |allocations| ::
               allocations[k].amount > 0 && HasContract(contracts, allocations[k].contractId)
    ensures var after := before + ConfirmedFor(allocations, paymentDate);
            ReceiptsAreRight(contracts, before, after, ReceiptsFor(contracts, after, Linked(allocations, |before|)))
  {
    var after := before + ConfirmedFor(allocations, paymentDate);
    var receipts := ReceiptsFor(contracts, after, Linked(allocations, |before|));
    forall k | 0 <= k < |receipts| ensures ReceiptMatches(contracts, before, after, receipts[k], |before| + k) {
      ReceiptNumber(contracts, after, allocations, |before|, k);
      OneReceiptMatches(contracts, before, allocations, paymentDate, after, k);
    }
  }

  lemma TouchableContractsExist(contracts: seq<Contract>, pool: seq<Contract>, explicit: Option<int>)
    requires FromTable(contracts, pool, explicit)
    ensures forall id | MayTouch(pool, explicit, id) :: HasContract(contracts, id)
  {
    forall id | HasContract(pool, id) ensures HasContract(contracts, id) {
      var k :| 0 <= k < |pool| && pool[k].id == id;
      assert pool[k] in contracts;
    }
  }

  lemma SplitIsConfirmed(before: seq<Payment>, allocations: seq<Allocation>, paymentDate: int, amount: int,
                         pool: seq<Contract>, explicit: Option<int>)
    requires IsSplit(allocations, amount) && allocations != []
    requires forall k | 0 <= k < |allocations| :: MayTouch(pool, explicit, allocations[k].contractId)
    ensures SplitConfirmed(before, before + ConfirmedFor(allocations, paymentDate), amount, pool, explicit)
  {
    var added := ConfirmedFor(allocations, paymentDate);
    ConfirmedSum(allocations, paymentDate);
    assert (before + added)[|before|..] == added;
  }
}
