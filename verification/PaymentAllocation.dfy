/**
 The allocation service: which contracts a payment is split over, and how
 (app/services/payment_allocation_service.py).
 */
module PaymentAllocation {
  import opened Prelude
  import opened Ledger
  import opened RoundRobin
  import A = Arithmetic

  /** One part of a payment; `paymentId` is filled in once the payment row exists. */
  datatype Allocation = Allocation(contractId: int, amount: int, referenceCode: Option<string>, paymentId: Option<int>)

  /** What `allocate` returns; asked for a resolved contract without an amount, it names the contract and no amount. */
  datatype Decision =
    | Decision(allocations: seq<Allocation>, requiresApproval: bool)
    | NoAmount(contractId: int, referenceCode: Option<string>)

  function Dailies(contracts: seq<Contract>): (d: seq<int>)
    ensures |d| == |contracts|
    ensures forall i | 0 <= i < |d| :: d[i] == contracts[i].dailyAmount
  {
    if contracts == [] then [] else Dailies(contracts[..|contracts| - 1]) + [contracts[|contracts| - 1].dailyAmount]
  }

  /** Contracts that still owe money, in their order. */
  function Eligible(payments: seq<Payment>, contracts: seq<Contract>): seq<Contract>
  {
    if contracts == [] then []
    else
      var rest := Eligible(payments, contracts[..|contracts| - 1]);
      var last := contracts[|contracts| - 1];
      if Remaining(payments, last.totalAmount, last.id) > 0 then rest + [last] else rest
  }

  lemma {:induction false} EligibleMembers(payments: seq<Payment>, contracts: seq<Contract>)
    ensures forall c :: c in Eligible(payments, contracts) <==>
                        c in contracts && Remaining(payments, c.totalAmount, c.id) > 0
  {
    if contracts != [] {
      var init, last := contracts[..|contracts| - 1], contracts[|contracts| - 1];
      EligibleMembers(payments, init);
      assert contracts == init + [last];
    }
  }

  lemma {:induction false} EligibleDistinct(payments: seq<Payment>, contracts: seq<Contract>)
    requires DistinctContracts(contracts)
    ensures DistinctContracts(Eligible(payments, contracts))
  {
    if contracts != [] {
      var init, last := contracts[..|contracts| - 1], contracts[|contracts| - 1];
      EligibleDistinct(payments, init);
      EligibleMembers(payments, init);
      var rest := Eligible(payments, init);
      forall k | 0 <= k < |rest| ensures rest[k].id != last.id {
        assert rest[k] in rest;
        var j :| 0 <= j < |init| && init[j] == rest[k];
        assert contracts[j].id != contracts[|contracts| - 1].id;
      }
    }
  }

  lemma {:induction false} EligibleSubset(payments: seq<Payment>, contracts: seq<Contract>)
    ensures forall c :: c in Eligible(payments, contracts) <==>
                        c in contracts && Remaining(payments, c.totalAmount, c.id) > 0
    ensures DistinctContracts(contracts) ==> DistinctContracts(Eligible(payments, contracts))
  {
    EligibleMembers(payments, contracts);
    if DistinctContracts(contracts) {
      EligibleDistinct(payments, contracts);
    }
  }

  /** The allocations after `p` passes, contracts with nothing left out. */
  function Shares(amount: int, eligible: seq<Contract>, p: nat, n: nat): (allocations: seq<Allocation>)
    requires n <= |eligible|
  {
    if n == 0 then []
    else
      var units := Units(amount, Dailies(eligible), p, n - 1);
      var c := eligible[n - 1];
      Shares(amount, eligible, p, n - 1)
      + (if c.dailyAmount * units > 0 then [Allocation(c.id, c.dailyAmount * units, Some(c.referenceCode), None)]
         else [])
  }

  function Total(allocations: seq<Allocation>): int
  {
    if allocations == [] then 0 else Total(allocations[..|allocations| - 1]) + allocations[|allocations| - 1].amount
  }

  /** One more contract adds its share, whether it is listed or left out. */
  lemma TotalOfOneMore(allocations: seq<Allocation>, c: Contract, share: nat)
    ensures Total(allocations
                  + (if share > 0 then [Allocation(c.id, share, Some(c.referenceCode), None)] else []))
            == Total(allocations) + share
  {
    if share > 0 {
      var a := Allocation(c.id, share, Some(c.referenceCode), None);
      assert (allocations + [a])[..|allocations|] == allocations;
    } else {
      assert allocations + [] == allocations;
    }
  }

  ghost predicate DistinctTargets(allocations: seq<Allocation>)
  {
    forall i, j | 0 <= i < j < |allocations| :: allocations[i].contractId != allocations[j].contractId
  }

  lemma {:induction false} SharesTotal(amount: int, eligible: seq<Contract>, p: nat, n: nat)
    requires n <= |eligible|
    requires forall c | c in eligible :: c.dailyAmount > 0
    ensures Total(Shares(amount, eligible, p, n)) == Given(amount, Dailies(eligible), p, n)
  {
    if n > 0 {
      SharesTotal(amount, eligible, p, n - 1);
      var units, c := Units(amount, Dailies(eligible), p, n - 1), eligible[n - 1];
      assert c in eligible && Dailies(eligible)[n - 1] == c.dailyAmount;
      A.NonNegative(c.dailyAmount, units);
      TotalOfOneMore(Shares(amount, eligible, p, n - 1), c, c.dailyAmount * units);
    }
  }

  /** The id is one of the first n contracts'. */
  predicate Among(contracts: seq<Contract>, n: nat, id: int)
    requires n <= |contracts|
  {
    exists k | 0 <= k < n :: contracts[k].id == id
  }

  lemma {:induction false} SharesTargets(amount: int, eligible: seq<Contract>, p: nat, n: nat)
    requires n <= |eligible| && DistinctContracts(eligible)
    ensures var a := Shares(amount, eligible, p, n);
            && DistinctTargets(a)
            && forall k | 0 <= k < |a| :: a[k].amount > 0 && Among(eligible, n, a[k].contractId) && a[k].paymentId.None?
  {
    if n > 0 {
      SharesTargets(amount, eligible, p, n - 1);
      var shorter := Shares(amount, eligible, p, n - 1);
      forall k | 0 <= k < |shorter|
        ensures shorter[k].contractId != eligible[n - 1].id && Among(eligible, n, shorter[k].contractId)
      {
        var j :| 0 <= j < n - 1 && eligible[j].id == shorter[k].contractId;
      }
      assert Among(eligible, n, eligible[n - 1].id);
    }
  }

  /** A full split of the amount: positive parts on distinct contracts that add up to it. */
  ghost predicate IsSplit(allocations: seq<Allocation>, amount: int)
  {
    && DistinctTargets(allocations)
    && (forall k | 0 <= k < |allocations| :: allocations[k].amount > 0)
    && Total(allocations) == amount
  }

  ghost predicate PositiveDailies(contracts: seq<Contract>)
  {
    forall c | c in contracts :: c.dailyAmount > 0
  }

  function CodeOf(contracts: seq<Contract>, id: int): Option<string>
  {
    if contracts == [] then None
    else if contracts[0].id == id then Some(contracts[0].referenceCode)
    else CodeOf(contracts[1..], id)
  }

  function Single(contractId: int, amount: int, contracts: seq<Contract>): (decision: Decision)
    ensures decision.Decision?
  {
    Decision([Allocation(contractId, amount, CodeOf(contracts, contractId), None)], false)
  }

  lemma DailiesArePositive(contracts: seq<Contract>)
    requires PositiveDailies(contracts)
    ensures Positive(Dailies(contracts))
  {
    forall i | 0 <= i < |contracts| ensures Dailies(contracts)[i] > 0 {
      assert contracts[i] in contracts;
    }
  }

  const NEEDS_APPROVAL := Decision([], true)

  lemma EligibleDailiesArePositive(payments: seq<Payment>, contracts: seq<Contract>)
    requires PositiveDailies(contracts)
    ensures PositiveDailies(Eligible(payments, contracts)) && Positive(Dailies(Eligible(payments, contracts)))
  {
    EligibleSubset(payments, contracts);
    DailiesArePositive(Eligible(payments, contracts));
  }

  /** What `allocate` decides when these payments exist. */
  function Decided(payments: seq<Payment>, amount: int, contracts: seq<Contract>,
                   resolvedContractId: Option<int>): (decision: Decision)
    requires PositiveDailies(contracts)
    ensures decision.Decision?
  {
    var eligible := Eligible(payments, contracts);
    if resolvedContractId.Some? then Single(resolvedContractId.value, amount, contracts)
    else if amount <= 0 || eligible == [] then NEEDS_APPROVAL
    else if |eligible| == 1 then Single(eligible[0].id, amount, contracts)
    else
      EligibleDailiesArePositive(payments, contracts);
      match Passes(amount, Dailies(eligible), 0)
      case None => NEEDS_APPROVAL
      case Some(p) => Decision(Shares(amount, eligible, p, |eligible|), false)
  }

  /**
   What a decision is worth. A human is needed exactly if nothing is allocated. What is
   allocated without a reference is a full split over contracts that still owe money; a
   referenced contract takes the whole amount even if it owes nothing.
   */
  lemma DecidedIsSplit(payments: seq<Payment>, amount: int, contracts: seq<Contract>, resolvedContractId: Option<int>)
    requires DistinctContracts(contracts) && PositiveDailies(contracts)
    ensures var decision := Decided(payments, amount, contracts, resolvedContractId);
            && (decision.requiresApproval <==> decision.allocations == [])
            && (forall k | 0 <= k < |decision.allocations| :: decision.allocations[k].paymentId.None?)
            && (resolvedContractId.Some? ==>
                  |decision.allocations| == 1 && decision.allocations[0].contractId == resolvedContractId.value
                  && Total(decision.allocations) == amount)
            && (resolvedContractId.None? && !decision.requiresApproval ==>
                  && amount > 0 && IsSplit(decision.allocations, amount)
                  && forall k | 0 <= k < |decision.allocations| ::
                       HasContract(Eligible(payments, contracts), decision.allocations[k].contractId))
  {
    var eligible, decision := Eligible(payments, contracts), Decided(payments, amount, contracts, resolvedContractId);
    assert Total([]) == 0;
    if resolvedContractId.Some? {
      assert decision.allocations[..0] == [];
    } else if !decision.requiresApproval {
      EligibleSubset(payments, contracts);
      EligibleDailiesArePositive(payments, contracts);
      if |eligible| == 1 {
        SingleIsSplit(eligible[0].id, amount, contracts);
      } else {
        SharesAreSplit(amount, eligible, Passes(amount, Dailies(eligible), 0).value);
      }
    }
  }

  /** No contract in the pool with this id owes anything. The pool need not hold the contract at all. */
  ghost predicate PaidUp(payments: seq<Payment>, contracts: seq<Contract>, id: int)
  {
    forall c | c in contracts && c.id == id :: Remaining(payments, c.totalAmount, id) == 0
  }

  lemma EligibleOwes(payments: seq<Payment>, contracts: seq<Contract>, id: int)
    requires PaidUp(payments, contracts, id)
    ensures !HasContract(Eligible(payments, contracts), id)
  {
    var eligible := Eligible(payments, contracts);
    EligibleSubset(payments, contracts);
    forall k | 0 <= k < |eligible| ensures eligible[k].id != id {
      assert eligible[k] in eligible;
    }
  }

  /**
   Money lands on a contract that owes nothing exactly if that contract was resolved
   beforehand, whether or not the pool holds it.
   */
  lemma PaidUpContractIsReachedOnlyByReference(payments: seq<Payment>, amount: int, contracts: seq<Contract>,
                                               resolvedContractId: Option<int>, id: int)
    requires DistinctContracts(contracts) && PositiveDailies(contracts) && PaidUp(payments, contracts, id)
    ensures var allocations := Decided(payments, amount, contracts, resolvedContractId).allocations;
            (exists k | 0 <= k < |allocations| :: allocations[k].contractId == id) <==> resolvedContractId == Some(id)
  {
    var allocations := Decided(payments, amount, contracts, resolvedContractId).allocations;
    DecidedIsSplit(payments, amount, contracts, resolvedContractId);
    EligibleOwes(payments, contracts, id);
    if resolvedContractId.Some? {
      assert allocations[0].contractId == resolvedContractId.value;
    }
  }

  /** For instance: 40 more on a contract of 100 that has been paid in full, because the message named it. */
  lemma PaidUpContractGetsForty()
    ensures var c, paid := Contract(1, Some(7), "A1", 100, 10, ACTIVE), [Confirmed(1, 100, 0)];
            && Remaining(paid, c.totalAmount, c.id) == 0
            && Decided(paid, 40, [c], Some(1)).allocations == [Allocation(1, 40, Some("A1"), None)]
            && Decided(paid, 40, [c], None).requiresApproval
  {
    var c, paid := Contract(1, Some(7), "A1", 100, 10, ACTIVE), [Confirmed(1, 100, 0)];
    assert paid[..0] == [] && Sum(paid, PaidTo(1)) == Sum(paid[..0], PaidTo(1)) + 100;
    assert [c][..0] == [] && Eligible(paid, [c][..0]) == [];
    assert Eligible(paid, [c]) == [];
    assert CodeOf([c], 1) == Some("A1");
  }

  class PaymentAllocationService {
    const ledger: PaymentLedger

    constructor (ledger: PaymentLedger)
      ensures this.ledger == ledger
    {
      this.ledger := ledger;
    }

    method EligibleContracts(contracts: seq<Contract>) returns (eligible: seq<Contract>)
      ensures eligible == Eligible(ledger.payments, contracts)
    {
      eligible := [];
      for i := 0 to |contracts|
        invariant eligible == Eligible(ledger.payments, contracts[..i])
      {
        assert contracts[..i + 1][..i] == contracts[..i];
        var remaining := Remaining(ledger.payments, contracts[i].totalAmount, contracts[i].id);
        if remaining > 0 {
          eligible := eligible + [contracts[i]];
        }
      }
      assert contracts[..|contracts|] == contracts;
    }

    /** The inner loop: one pass over the eligible contracts. */
    method Pass(eligible: seq<Contract>, money: int, given: map<int, int>, ghost amount: int, ghost p: nat)
      returns (remaining: int, totals: map<int, int>, progressed: bool)
      requires DistinctContracts(eligible) && Positive(Dailies(eligible))
      requires money == Left(amount, Dailies(eligible), p, 0) && TotalsAt(amount, eligible, given, p, 0)
      ensures remaining == Left(amount, Dailies(eligible), p + 1, 0) && TotalsAt(amount, eligible, totals, p + 1, 0)
      ensures remaining <= money && (progressed <==> remaining != money)
    {
      remaining, totals, progressed := money, given, false;
      var i := 0;
      while i < |eligible|
        invariant i <= |eligible| && remaining == Left(amount, Dailies(eligible), p, i)
        invariant TotalsAt(amount, eligible, totals, p, i)
        invariant remaining <= money && (progressed <==> remaining != money)
        decreases |eligible| - i
      {
        if remaining <= 0 {
          BreakEndsPass(amount, eligible, totals, p, i);
          break;
        }
        var contract := eligible[i];
        var daily := contract.dailyAmount;
        TurnUpdates(amount, eligible, totals, p, i);
        if remaining >= daily {
          totals := totals[contract.id := totals[contract.id] + daily];
          remaining := remaining - daily;
          progressed := true;
        }
        i := i + 1;
      }
      PassUpdates(amount, eligible, totals, p);
    }

    /** The distribution: passes until nothing is left or a pass makes no progress. */
    method RoundRobin(amount: int, eligible: seq<Contract>) returns (allocations: Option<seq<Allocation>>)
      requires DistinctContracts(eligible) && PositiveDailies(eligible)
      ensures Positive(Dailies(eligible))
      ensures allocations == match Passes(amount, Dailies(eligible), 0)
                             case None => None
                             case Some(p) => Some(Shares(amount, eligible, p, |eligible|))
    {
      DailiesArePositive(eligible);
      var remaining := amount;
      var totals := ZeroTotals(eligible);
      ZeroTotalsStart(amount, eligible);
      ghost var p := 0;
      while remaining > 0
        invariant remaining == Left(amount, Dailies(eligible), p, 0)
        invariant Passes(amount, Dailies(eligible), p) == Passes(amount, Dailies(eligible), 0)
        invariant TotalsAt(amount, eligible, totals, p, 0)
        decreases remaining
      {
        var progressed: bool;
        PassDecides(amount, Dailies(eligible), p);
        remaining, totals, progressed := Pass(eligible, remaining, totals, amount, p);
        if !progressed {
          return None;
        }
        p := p + 1;
      }
      ListingIsShares(amount, eligible, totals, p, |eligible|);
      allocations := Some(Listing(eligible, totals, |eligible|));
    }

    /**
     The whole decision. A resolved contract takes everything; otherwise the money
     goes to the contracts that still owe, or to a human when it cannot be split.
     */
    method Allocate(amount: Option<int>, contracts: seq<Contract>, resolvedContractId: Option<int>)
      returns (decision: Decision)
      requires DistinctContracts(contracts) && PositiveDailies(contracts)
      ensures amount.Some? ==> decision == Decided(ledger.payments, amount.value, contracts, resolvedContractId)
      ensures amount.None? ==>
                decision == if resolvedContractId.None? then NEEDS_APPROVAL
                            else NoAmount(resolvedContractId.value, CodeOf(contracts, resolvedContractId.value))
    {
      if resolvedContractId.Some? {
        if amount.None? {
          return NoAmount(resolvedContractId.value, CodeOf(contracts, resolvedContractId.value));
        }
        return Single(resolvedContractId.value, amount.value, contracts);
      }
      if amount.None? || amount.value <= 0 {
        return NEEDS_APPROVAL;
      }
      var eligible := EligibleContracts(contracts);
      if |eligible| == 0 {
        return NEEDS_APPROVAL;
      }
      if |eligible| == 1 {
        return Single(eligible[0].id, amount.value, contracts);
      }
      EligibleSubset(ledger.payments, contracts);
      var allocations := RoundRobin(amount.value, eligible);
      if allocations.None? {
        return NEEDS_APPROVAL;
      }
      decision := Decision(allocations.value, false);
    }
  }

  lemma SingleIsSplit(contractId: int, amount: int, contracts: seq<Contract>)
    requires amount > 0
    ensures IsSplit(Single(contractId, amount, contracts).allocations, amount)
  {
    var allocations := Single(contractId, amount, contracts).allocations;
    assert Total(allocations[..0]) == 0;
  }

  /** A distribution that ends hands out exactly the payment. */
  lemma SharesAreSplit(amount: int, eligible: seq<Contract>, p: nat)
    requires DistinctContracts(eligible) && PositiveDailies(eligible) && amount > 0
    requires Positive(Dailies(eligible)) && Passes(amount, Dailies(eligible), 0) == Some(p)
    ensures var a := Shares(amount, eligible, p, |eligible|);
            IsSplit(a, amount) && a != [] && forall k | 0 <= k < |a| ::
                                               HasContract(eligible, a[k].contractId) && a[k].paymentId.None?
  {
    var d := Dailies(eligible);
    PassesEnd(amount, d, 0);
    Conservation(amount, d, p);
    SharesTotal(amount, eligible, p, |eligible|);
    SharesTargets(amount, eligible, p, |eligible|);
  }

  /** The dict the distribution starts from. */
  function ZeroTotals(eligible: seq<Contract>): (totals: map<int, int>)
    ensures forall k | 0 <= k < |eligible| :: eligible[k].id in totals && totals[eligible[k].id] == 0
  {
    if eligible == [] then map[]
    else ZeroTotals(eligible[..|eligible| - 1])[eligible[|eligible| - 1].id := 0]
  }

  lemma ZeroTotalsStart(amount: int, eligible: seq<Contract>)
    ensures TotalsAt(amount, eligible, ZeroTotals(eligible), 0, 0)
  {
  }

  /** The returned list: contracts with something in `totals`, in order. */
  function Listing(eligible: seq<Contract>, totals: map<int, int>, n: nat): seq<Allocation>
    requires n <= |eligible| && forall k | 0 <= k < |eligible| :: eligible[k].id in totals
  {
    if n == 0 then []
    else
      var c := eligible[n - 1];
      Listing(eligible, totals, n - 1)
      + (if totals[c.id] > 0 then [Allocation(c.id, totals[c.id], Some(c.referenceCode), None)] else [])
  }

  lemma {:induction false} ListingIsShares(amount: int, eligible: seq<Contract>, totals: map<int, int>, p: nat, n: nat)
    requires n <= |eligible| && TotalsAt(amount, eligible, totals, p, 0)
    ensures Listing(eligible, totals, n) == Shares(amount, eligible, p, n)
  {
    if n > 0 {
      ListingIsShares(amount, eligible, totals, p, n - 1);
    }
  }

  /** The dict of totals before the turn of contract i in pass p. */
  ghost predicate TotalsAt(amount: int, eligible: seq<Contract>, totals: map<int, int>, p: nat, i: nat)
  {
    forall k | 0 <= k < |eligible| ::
      && eligible[k].id in totals
      && totals[eligible[k].id]
         == eligible[k].dailyAmount * Units(amount, Dailies(eligible), if k < i then p + 1 else p, k)
  }

  lemma TurnUpdates(amount: int, eligible: seq<Contract>, totals: map<int, int>, p: nat, i: nat)
    requires DistinctContracts(eligible) && TotalsAt(amount, eligible, totals, p, i) && i < |eligible|
    ensures var c := eligible[i];
            if Served(amount, Dailies(eligible), p, i) then
              TotalsAt(amount, eligible, totals[c.id := totals[c.id] + c.dailyAmount], p, i + 1)
            else TotalsAt(amount, eligible, totals, p, i + 1)
    ensures Served(amount, Dailies(eligible), p, i)
            <==> Left(amount, Dailies(eligible), p, i) >= eligible[i].dailyAmount
    ensures Left(amount, Dailies(eligible), p, i + 1) ==
            Left(amount, Dailies(eligible), p, i) - (if Served(amount, Dailies(eligible), p, i)
                                                     then eligible[i].dailyAmount else 0)
  {
    var c, d := eligible[i], Dailies(eligible);
    A.Next(c.dailyAmount, Units(amount, d, p, i));
    var totals' := if Served(amount, d, p, i) then totals[c.id := totals[c.id] + c.dailyAmount] else totals;
    forall k | 0 <= k < |eligible|
      ensures eligible[k].id in totals'
      ensures totals'[eligible[k].id] == eligible[k].dailyAmount * Units(amount, d, if k < i + 1 then p + 1 else p, k)
    {
      if k != i {
        assert eligible[k].id != c.id;
        assert totals'[eligible[k].id] == totals[eligible[k].id];
      }
    }
  }

  lemma PassUpdates(amount: int, eligible: seq<Contract>, totals: map<int, int>, p: nat)
    requires TotalsAt(amount, eligible, totals, p, |eligible|)
    ensures TotalsAt(amount, eligible, totals, p + 1, 0)
    ensures Left(amount, Dailies(eligible), p + 1, 0) == Left(amount, Dailies(eligible), p, |eligible|)
  {
  }

  /** Breaking out of a pass with nothing left is the same as finishing it. */
  lemma BreakEndsPass(amount: int, eligible: seq<Contract>, totals: map<int, int>, p: nat, i: nat)
    requires Positive(Dailies(eligible)) && i <= |eligible| && Left(amount, Dailies(eligible), p, i) <= 0
    requires TotalsAt(amount, eligible, totals, p, i)
    ensures Left(amount, Dailies(eligible), p, |eligible|) == Left(amount, Dailies(eligible), p, i)
    ensures TotalsAt(amount, eligible, totals, p, |eligible|)
  {
    RestServesNobody(amount, Dailies(eligible), p, i);
  }

  lemma PassDecides(amount: int, d: seq<int>, p: nat)
    requires Positive(d) && Left(amount, d, p, 0) > 0
    ensures Passes(amount, d, p) == if Left(amount, d, p + 1, 0) == Left(amount, d, p, 0) then None
            else Passes(amount, d, p + 1)
  {
  }
}
