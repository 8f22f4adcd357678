/**
 Portfolio totals (app/services/contract_reporting_service.py,
 app/services/insights/financial_insight_service.py).
 */
module Portfolio {
  import opened Prelude
  import opened Ledger

  const MONTH_DAYS := 30

  function UserContracts(contracts: seq<Contract>, userId: int): seq<Contract>
  {
    if contracts == [] then []
    else
      var last := contracts[|contracts| - 1];
      UserContracts(contracts[..|contracts| - 1], userId) + (if last.userId == Some(userId) then [last] else [])
  }

  function ActiveContracts(owned: seq<Contract>): seq<Contract>
  {
    if owned == [] then []
    else
      var last := owned[|owned| - 1];
      ActiveContracts(owned[..|owned| - 1]) + (if last.status == ACTIVE then [last] else [])
  }

  function TotalValue(owned: seq<Contract>): int
  {
    if owned == [] then 0 else TotalValue(owned[..|owned| - 1]) + owned[|owned| - 1].totalAmount
  }

  function Outstanding(payments: seq<Payment>, owned: seq<Contract>): int
  {
    if owned == [] then 0
    else Outstanding(payments, owned[..|owned| - 1])
         + Remaining(payments, owned[|owned| - 1].totalAmount, owned[|owned| - 1].id)
  }

  /** get_total_collected: the contract value minus what is outstanding. */
  function Collected(payments: seq<Payment>, owned: seq<Contract>): int
  {
    TotalValue(owned) - Outstanding(payments, owned)
  }

  function NextMonth(payments: seq<Payment>, active: seq<Contract>): int
  {
    if active == [] then 0
    else
      var c := active[|active| - 1];
      NextMonth(payments, active[..|active| - 1]) + Min(c.dailyAmount * MONTH_DAYS,
                                                        Remaining(payments, c.totalAmount, c.id))
  }

  method ExpectedNextMonthIncome(payments: seq<Payment>, active: seq<Contract>) returns (total: int)
    ensures total == NextMonth(payments, active)
  {
    total := 0;
    for i := 0 to |active|
      invariant total == NextMonth(payments, active[..i])
    {
      assert active[..i + 1][..i] == active[..i];
      var remaining := Remaining(payments, active[i].totalAmount, active[i].id);
      var month := active[i].dailyAmount * MONTH_DAYS;
      total := total + (if remaining < month then remaining else month);
    }
    assert active[..|active|] == active;
  }

  function PaidOn(payments: seq<Payment>, owned: seq<Contract>): int
  {
    if owned == [] then 0 else PaidOn(payments, owned[..|owned| - 1]) + TotalPaid(payments, owned[|owned| - 1].id)
  }

  ghost predicate Overpaid(payments: seq<Payment>, c: Contract)
  {
    TotalPaid(payments, c.id) > c.totalAmount
  }

  lemma PaidIsNonNegative(payments: seq<Payment>, id: int)
    requires forall p | p in payments :: p.amount > 0
    ensures TotalPaid(payments, id) >= 0
  {
    SumNonNegative(payments, PaidTo(id));
  }

  /** Collected never exceeds the contract value or the money received; it is all of it unless someone overpaid. */
  lemma {:induction false} CollectedBounds(payments: seq<Payment>, owned: seq<Contract>)
    requires forall p | p in payments :: p.amount > 0
    requires forall c | c in owned :: c.totalAmount >= 0
    ensures 0 <= Collected(payments, owned) <= TotalValue(owned)
    ensures Collected(payments, owned) <= PaidOn(payments, owned)
    ensures Collected(payments, owned) == PaidOn(payments, owned) <==> forall c | c in owned :: !Overpaid(payments, c)
  {
    if owned != [] {
      var init, last := owned[..|owned| - 1], owned[|owned| - 1];
      CollectedBounds(payments, init);
      PaidIsNonNegative(payments, last.id);
      assert owned == init + [last];
      var part := last.totalAmount - Remaining(payments, last.totalAmount, last.id);
      assert Collected(payments, owned) == Collected(payments, init) + part;
      assert PaidOn(payments, owned) == PaidOn(payments, init) + TotalPaid(payments, last.id);
      assert part == TotalPaid(payments, last.id) <==> !Overpaid(payments, last);
      if forall c | c in init :: !Overpaid(payments, c) {
        assert (forall c | c in owned :: !Overpaid(payments, c)) <==> !Overpaid(payments, last);
      } else {
        var c :| c in init && Overpaid(payments, c);
        assert c in owned;
      }
    }
  }

  lemma {:induction false} PaidOnIsPaidOnContracts(contracts: seq<Contract>, payments: seq<Payment>, userId: int,
                                                   n: nat)
    requires n <= |contracts|
    ensures PaidOn(payments, UserContracts(contracts[..n], userId)) == PaidOnContracts(contracts, payments, userId, n)
  {
    if n > 0 {
      PaidOnIsPaidOnContracts(contracts, payments, userId, n - 1);
      assert contracts[..n][..n - 1] == contracts[..n - 1];
      var shorter := UserContracts(contracts[..n - 1], userId);
      assert shorter + [] == shorter && (shorter + [contracts[n - 1]])[..|shorter|] == shorter;
    }
  }

  /**
   Across services: what the portfolio calls collected is at most what the user is told
   to have received, and equal to it exactly when no contract of the user is overpaid.
   */
  lemma CollectedVersusReceived(contracts: seq<Contract>, payments: seq<Payment>, userId: int)
    requires LedgerInv(contracts, payments) && forall c | c in contracts :: c.totalAmount >= 0
    ensures var owned := UserContracts(contracts, userId);
            && 0 <= Collected(payments, owned) <= TotalValue(owned)
            && Collected(payments, owned) <= Received(contracts, payments, userId)
            && (Collected(payments, owned) == Received(contracts, payments, userId)
                <==> forall c | c in owned :: !Overpaid(payments, c))
  {
    var owned := UserContracts(contracts, userId);
    UserContractsAreContracts(contracts, userId);
    CollectedBounds(payments, owned);
    PaidOnIsPaidOnContracts(contracts, payments, userId, |contracts|);
    assert contracts[..|contracts|] == contracts;
    ReceivedIsPaidOnContracts(contracts, payments, userId);
  }

  lemma {:induction false} UserContractsAreContracts(contracts: seq<Contract>, userId: int)
    ensures forall c :: c in UserContracts(contracts, userId) <==> c in contracts && c.userId == Some(userId)
  {
    if contracts != [] {
      UserContractsAreContracts(contracts[..|contracts| - 1], userId);
      assert contracts == contracts[..|contracts| - 1] + [contracts[|contracts| - 1]];
    }
  }

  /** Next month's expected income stays within what is still owed. */
  lemma {:induction false} NextMonthWithinOutstanding(payments: seq<Payment>, owned: seq<Contract>)
    ensures NextMonth(payments, ActiveContracts(owned)) <= Outstanding(payments, owned)
  {
    if owned != [] {
      var init, last := owned[..|owned| - 1], owned[|owned| - 1];
      NextMonthWithinOutstanding(payments, init);
      var active := ActiveContracts(init);
      assert active + [] == active && (active + [last])[..|active|] == active;
    }
  }
}
