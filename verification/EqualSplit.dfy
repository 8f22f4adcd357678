/** The allocations that the round-robin returns when all daily amounts are the same. */
module EqualSplit {
  import opened Prelude
  import opened Ledger
  import opened RoundRobin
  import opened RoundRobinExact
  import opened PaymentAllocation
  import A = Arithmetic

  /** Entry number i of the list: its contract with its whole number of daily amounts. */
  function EqualEntry(amount: nat, c: int, eligible: seq<Contract>, i: nat): Allocation
    requires c > 0 && i < |eligible|
  {
    Allocation(eligible[i].id, c * EqualShare(amount / c, |eligible|, i), Some(eligible[i].referenceCode), None)
  }

  /** Only the first q contracts get anything when q units go round n contracts. */
  lemma ShareIsPositiveIff(q: nat, n: nat, i: nat)
    requires i < n
    ensures EqualShare(q, n, i) > 0 <==> i < q
  {
    A.Division(q, n);
    if q < n {
      A.DivisionIsUnique(q, n, 0, q);
    } else {
      A.FitsIff(n, 1, q);
    }
  }

  /** The first `m` contracts, each served its equal share, listed without the empty ones. */
  lemma {:induction false} EqualEntries(amount: nat, eligible: seq<Contract>, c: int, p: nat, m: nat)
    requires c > 0 && m <= |eligible| && AllEqual(Dailies(eligible), c)
    requires forall i | 0 <= i < |eligible| ::
               Units(amount, Dailies(eligible), p, i) == EqualShare(amount / c, |eligible|, i)
    ensures var list := Shares(amount, eligible, p, m);
            && |list| == Min(amount / c, m)
            && forall i | 0 <= i < |list| :: list[i] == EqualEntry(amount, c, eligible, i)
  {
    if m > 0 {
      var i := m - 1;
      EqualEntries(amount, eligible, c, p, i);
      ShareIsPositiveIff(amount / c, |eligible|, i);
      var share := EqualShare(amount / c, |eligible|, i);
      assert Dailies(eligible)[i] == c && eligible[i].dailyAmount == c;
      if share > 0 {
        A.AtMost(c, 1, share);
      }
    }
  }

  /**
   Equal daily amounts c over n contracts that owe money, in the service's terms: a human
   is needed exactly if the amount is not a multiple of c; otherwise the first
   min(amount / c, n) contracts, in order, get c times their share, the amount / c units
   going round evenly and the first contracts getting the odd ones.
   */
  lemma EqualDailiesSplit(amount: nat, eligible: seq<Contract>, c: int)
    requires c > 0 && eligible != [] && AllEqual(Dailies(eligible), c) && Positive(Dailies(eligible))
    ensures match Passes(amount, Dailies(eligible), 0)
            case None => amount % c != 0
            case Some(p) =>
              var list := Shares(amount, eligible, p, |eligible|);
              && amount % c == 0 && |list| == Min(amount / c, |eligible|)
              && forall i | 0 <= i < |list| :: list[i] == EqualEntry(amount, c, eligible, i)
  {
    EqualDailies(amount, Dailies(eligible), c);
    if Passes(amount, Dailies(eligible), 0).Some? {
      EqualEntries(amount, eligible, c, Passes(amount, Dailies(eligible), 0).value, |eligible|);
    }
  }

  /** And so for the whole decision, over a pool of at least two contracts that owe money. */
  lemma EqualDailiesDecided(payments: seq<Payment>, amount: int, contracts: seq<Contract>, c: int)
    requires c > 0 && amount > 0 && PositiveDailies(contracts) && |Eligible(payments, contracts)| > 1
    requires AllEqual(Dailies(Eligible(payments, contracts)), c)
    ensures var eligible, decision := Eligible(payments, contracts), Decided(payments, amount, contracts, None);
            && (decision.requiresApproval <==> amount % c != 0)
            && (amount % c == 0 ==>
                  && |decision.allocations| == Min(amount / c, |eligible|)
                  && forall i | 0 <= i < |decision.allocations| ::
                       decision.allocations[i] == EqualEntry(amount, c, eligible, i))
  {
    EligibleDailiesArePositive(payments, contracts);
    EqualDailiesSplit(amount, Eligible(payments, contracts), c);
  }
}
