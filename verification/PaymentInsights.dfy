/** Payment-behaviour insights (app/services/insights/payment_insight_service.py); a date is a day number. */
module PaymentInsights {
  import opened Prelude
  import opened Ledger

  // ---- the sorted set of payment days ---------------------------------------------------

  ghost predicate Increasing(days: seq<int>)
  {
    forall i, j | 0 <= i < j < |days| :: days[i] < days[j]
  }

  function Insert(days: seq<int>, d: int): seq<int>
  {
    if days == [] || d < days[0] then [d] + days
    else if d == days[0] then days
    else [days[0]] + Insert(days[1..], d)
  }

  function SortedDays(dates: seq<int>): seq<int>
  {
    if dates == [] then [] else Insert(SortedDays(dates[1..]), dates[0])
  }

  lemma {:induction false} InsertSorted(days: seq<int>, d: int)
    requires Increasing(days)
    ensures Increasing(Insert(days, d))
    ensures forall x :: x in Insert(days, d) <==> x in days || x == d
  {
    if days != [] && d > days[0] {
      InsertSorted(days[1..], d);
      var rest := Insert(days[1..], d);
      forall i | 0 <= i < |rest| ensures days[0] < rest[i] {
        assert rest[i] in rest;
        if rest[i] != d {
          assert rest[i] in days[1..];
        }
      }
      assert days == [days[0]] + days[1..];
    }
  }

  lemma {:induction false} SortedDaysSorted(dates: seq<int>)
    ensures Increasing(SortedDays(dates))
    ensures forall x :: x in SortedDays(dates) <==> x in dates
    ensures SortedDays(dates) == [] <==> dates == []
  {
    if dates != [] {
      SortedDaysSorted(dates[1..]);
      InsertSorted(SortedDays(dates[1..]), dates[0]);
      assert dates == [dates[0]] + dates[1..];
    }
  }

  // ---- streaks ----------------------------------------------------------------------------

  /** n consecutive days starting at `first` all have a payment. */
  ghost predicate Block(dates: seq<int>, first: int, n: nat)
  {
    forall d | first <= d < first + n :: d in dates
  }

  /** The n consecutive days up to `last` all have a payment. */
  ghost predicate BlockEnding(dates: seq<int>, last: int, n: nat)
  {
    Block(dates, last - n + 1, n)
  }

  /** n is the length of the longest block of consecutive payment days. */
  ghost predicate IsLongest(dates: seq<int>, n: nat)
  {
    && (exists first :: Block(dates, first, n))
    && forall first, m: nat | Block(dates, first, m) :: m <= n
  }

  /** n is the length of the longest block that ends on `last`. */
  ghost predicate IsLongestEndingAt(dates: seq<int>, last: int, n: nat)
  {
    && BlockEnding(dates, last, n)
    && forall m: nat | BlockEnding(dates, last, m) :: m <= n
  }

  /** The run of consecutive days that ends at position i. */
  function RunLength(days: seq<int>, i: nat): (n: nat)
    requires i < |days|
    ensures 1 <= n <= i + 1
  {
    if i > 0 && days[i] - days[i - 1] == 1 then RunLength(days, i - 1) + 1 else 1
  }

  lemma {:induction false} RunIsBlock(dates: seq<int>, days: seq<int>, i: nat)
    requires i < |days| && forall x :: x in days <==> x in dates
    ensures Block(dates, days[i] - RunLength(days, i) + 1, RunLength(days, i))
  {
    assert days[i] in days;
    if i > 0 && days[i] - days[i - 1] == 1 {
      RunIsBlock(dates, days, i - 1);
    }
  }

  lemma {:induction false} BlockFitsRun(dates: seq<int>, days: seq<int>, first: int, n: nat, i: nat)
    requires Increasing(days) && forall x :: x in days <==> x in dates
    requires i < |days| && n > 0 && Block(dates, first, n) && days[i] == first + n - 1
    ensures n <= RunLength(days, i)
    decreases n
  {
    if n > 1 {
      assert first <= first + n - 2 < first + n;
      assert first + n - 2 in dates && first + n - 2 in days;
      var k :| 0 <= k < |days| && days[k] == first + n - 2;
      assert k < i;
      assert days[k] <= days[i - 1] < days[i];
      assert k == i - 1;
      BlockFitsRun(dates, days, first, n - 1, i - 1);
    }
  }

  lemma LongestOverRuns(dates: seq<int>, days: seq<int>, n: nat)
    requires Increasing(days) && forall x :: x in days <==> x in dates
    requires exists i | 0 <= i < |days| :: RunLength(days, i) == n
    requires forall i | 0 <= i < |days| :: RunLength(days, i) <= n
    ensures IsLongest(dates, n)
  {
    var i :| 0 <= i < |days| && RunLength(days, i) == n;
    RunIsBlock(dates, days, i);
    forall first, m: nat | Block(dates, first, m) ensures m <= n {
      if m > 0 {
        assert first + m - 1 in dates && first + m - 1 in days;
        var k :| 0 <= k < |days| && days[k] == first + m - 1;
        BlockFitsRun(dates, days, first, m, k);
      }
    }
  }

  lemma RunEndingAtLast(dates: seq<int>, days: seq<int>)
    requires days != [] && Increasing(days) && forall x :: x in days <==> x in dates
    ensures IsLongestEndingAt(dates, days[|days| - 1], RunLength(days, |days| - 1))
  {
    var last := |days| - 1;
    RunIsBlock(dates, days, last);
    forall m: nat | BlockEnding(dates, days[last], m) ensures m <= RunLength(days, last) {
      if m > 0 {
        BlockFitsRun(dates, days, days[last] - m + 1, m, last);
      }
    }
  }

  predicate IsNewest(dates: seq<int>, d: int)
  {
    d in dates && forall k | 0 <= k < |dates| :: dates[k] <= d
  }

  predicate IsOldest(dates: seq<int>, d: int)
  {
    d in dates && forall k | 0 <= k < |dates| :: d <= dates[k]
  }

  lemma NoDatesNoBlock(dates: seq<int>)
    requires dates == []
    ensures IsLongest(dates, 0) && forall d :: !IsNewest(dates, d)
  {
    assert Block(dates, 0, 0);
    forall first, m: nat | Block(dates, first, m) ensures m <= 0 {
      assert m > 0 ==> first in dates;
    }
  }

  lemma NewestIsLast(dates: seq<int>, days: seq<int>, d: int)
    requires Increasing(days) && days != [] && forall x :: x in days <==> x in dates
    requires IsNewest(dates, d)
    ensures d == days[|days| - 1]
  {
    assert d in days && days[|days| - 1] in dates;
    var k :| 0 <= k < |days| && days[k] == d;
  }

  /** One pass over the sorted days. */
  method PaymentStreak(dates: seq<int>, today: int) returns (longest: nat, current: nat)
    ensures IsLongest(dates, longest)
    ensures dates == [] ==> current == 0
    ensures forall newest | IsNewest(dates, newest) ::
              if today - newest <= 1 then IsLongestEndingAt(dates, newest, current) else current == 0
    ensures current <= longest <= |SortedDays(dates)|
  {
    var days := SortedDays(dates);
    SortedDaysSorted(dates);
    if days == [] {
      NoDatesNoBlock(dates);
      return 0, 0;
    }
    longest := 1;
    var run := 1;
    var i := 1;
    while i < |days|
      invariant 1 <= i <= |days| && run == RunLength(days, i - 1)
      invariant exists k | 0 <= k < i :: RunLength(days, k) == longest
      invariant forall k | 0 <= k < i :: RunLength(days, k) <= longest
    {
      if days[i] - days[i - 1] == 1 {
        run := run + 1;
      } else {
        run := 1;
      }
      assert run == RunLength(days, i);
      longest := if run > longest then run else longest;
      i := i + 1;
    }
    LongestOverRuns(dates, days, longest);
    RunEndingAtLast(dates, days);
    var newest := days[|days| - 1];
    current := if today - newest <= 1 then run else 0;
    forall d | IsNewest(dates, d) ensures d == newest {
      NewestIsLast(dates, days, d);
    }
  }

  lemma {:induction false} IncreasingSpreads(days: seq<int>, i: nat)
    requires Increasing(days) && i < |days|
    ensures days[i] >= days[0] + i
  {
    if i > 0 {
      IncreasingSpreads(days, i - 1);
    }
  }

  lemma {:induction false} DistinctDaysCount(days: seq<int>)
    requires Increasing(days)
    ensures |set d | d in days| == |days|
  {
    if days != [] {
      var init, last := days[..|days| - 1], days[|days| - 1];
      DistinctDaysCount(init);
      assert days == init + [last];
      assert (set d | d in days) == (set d | d in init) + {last};
      assert last !in init;
    }
  }

  /** Between the number of payment days and the days they span: payment_days <= span_days, from the raw dates. */
  lemma PaymentDaysWithinSpan(dates: seq<int>, oldest: int, newest: int)
    requires IsOldest(dates, oldest) && IsNewest(dates, newest)
    ensures |SortedDays(dates)| == |set d | d in dates| <= newest - oldest + 1
  {
    var days := SortedDays(dates);
    SortedDaysSorted(dates);
    DistinctDaysCount(days);
    assert (set d | d in days) == (set d | d in dates);
    assert oldest in days && newest in days;
    var last := |days| - 1;
    IncreasingSpreads(days, last);
    assert days[last] in dates && days[0] in dates;
  }

  // ---- grouping -------------------------------------------------------------------------------

  datatype Bucket = Bucket(count: nat, total: int)

  function Add(b: Bucket, amount: int): Bucket
  {
    Bucket(b.count + 1, b.total + amount)
  }

  function Plus(a: Bucket, b: Bucket): Bucket
  {
    Bucket(a.count + b.count, a.total + b.total)
  }

  /** The entry of a defaultdict. */
  function BucketAt(m: map<int, Bucket>, key: int): Bucket
  {
    if key in m then m[key] else Bucket(0, 0)
  }

  /** Grouping with any key: by month of the payment date, or by contract. */
  function GroupedBy(payments: seq<Payment>, key: Payment -> int): map<int, Bucket>
  {
    if payments == [] then map[]
    else
      var p, m := payments[|payments| - 1], GroupedBy(payments[..|payments| - 1], key);
      m[key(p) := Add(BucketAt(m, key(p)), p.amount)]
  }

  method ByMonth(payments: seq<Payment>, month: int -> int) returns (buckets: map<int, Bucket>)
    ensures buckets == GroupedBy(payments, (p: Payment) => month(p.date))
  {
    buckets := map[];
    ghost var key := (p: Payment) => month(p.date);
    for i := 0 to |payments|
      invariant buckets == GroupedBy(payments[..i], key)
    {
      assert payments[..i + 1][..i] == payments[..i];
      var k := month(payments[i].date);
      buckets := buckets[k := Add(BucketAt(buckets, k), payments[i].amount)];
    }
    assert payments[..|payments|] == payments;
  }

  /** All buckets of a dict added up, in any order. */
  ghost function SumOf(m: map<int, Bucket>): Bucket
    decreases |m|
  {
    if m == map[] then Bucket(0, 0)
    else
      MapHasKey(m);
      var k :| k in m;
      Plus(m[k], SumOf(m - {k}))
  }

  lemma MapHasKey(m: map<int, Bucket>)
    requires m != map[]
    ensures exists k :: k in m
  {
    SomeMember(m.Keys);
    assert m.Keys == {} ==> m == map[];
  }

  lemma {:induction false} SumOfTakesOut(m: map<int, Bucket>, k: int)
    requires k in m
    ensures SumOf(m) == Plus(m[k], SumOf(m - {k}))
    decreases |m|, 1
  {
    var j :| j in m && SumOf(m) == Plus(m[j], SumOf(m - {j}));
    TakeOutEither(m, j, k);
  }

  lemma {:induction false} TakeOutEither(m: map<int, Bucket>, j: int, k: int)
    requires j in m && k in m && SumOf(m) == Plus(m[j], SumOf(m - {j}))
    ensures SumOf(m) == Plus(m[k], SumOf(m - {k}))
    decreases |m|, 0
  {
    if j == k {
      assert m - {j} == m - {k};
    } else {
      var rest := m - {j} - {k};
      assert rest == m - {k} - {j};
      SumOfTakesOut(m - {j}, k);
      SumOfTakesOut(m - {k}, j);
      PlusSwaps(m[j], m[k], SumOf(rest));
    }
  }

  lemma PlusSwaps(a: Bucket, b: Bucket, c: Bucket)
    ensures Plus(a, Plus(b, c)) == Plus(b, Plus(a, c))
  {
  }

  lemma SumOfUpdate(m: map<int, Bucket>, k: int, amount: int)
    ensures SumOf(m[k := Add(BucketAt(m, k), amount)]) == Plus(SumOf(m), Bucket(1, amount))
  {
    var m' := m[k := Add(BucketAt(m, k), amount)];
    SumOfTakesOut(m', k);
    assert m' - {k} == m - {k};
    if k in m {
      SumOfTakesOut(m, k);
    } else {
      assert m - {k} == m;
    }
  }

  /** However payments are grouped, the groups add back up to all payments and all money. */
  lemma {:induction false} GroupsAddUp(payments: seq<Payment>, key: Payment -> int)
    ensures SumOf(GroupedBy(payments, key)) == Bucket(|payments|, Sum(payments, Amount))
  {
    if payments != [] {
      var init, p := payments[..|payments| - 1], payments[|payments| - 1];
      GroupsAddUp(init, key);
      SumOfUpdate(GroupedBy(init, key), key(p), p.amount);
    }
  }

  /** Each group holds exactly the payments with its key. */
  lemma {:induction false} GroupHoldsItsOwn(payments: seq<Payment>, key: Payment -> int, k: int)
    ensures BucketAt(GroupedBy(payments, key), k).total
            == Sum(payments, (p: Payment) => if key(p) == k then p.amount else 0)
    ensures k in GroupedBy(payments, key) <==> exists p :: p in payments && key(p) == k
  {
    if payments != [] {
      var init, p := payments[..|payments| - 1], payments[|payments| - 1];
      GroupHoldsItsOwn(init, key, k);
      assert payments == init + [p];
    }
  }

  // ---- the insights against the ledger -----------------------------------------------------------

  /** _approved_payments: the confirmed payments on the user's contracts, in order. */
  function ApprovedFor(contracts: seq<Contract>, payments: seq<Payment>, userId: int): seq<Payment>
  {
    if payments == [] then []
    else
      var p := payments[|payments| - 1];
      ApprovedFor(contracts, payments[..|payments| - 1], userId)
      + (if p.status == APPROVED && BelongsTo(contracts, p, userId) then [p] else [])
  }

  /** Leaving out other users' payments and unconfirmed ones changes no sum that counts neither. */
  lemma {:induction false} SumOverApproved(contracts: seq<Contract>, payments: seq<Payment>, userId: int,
                                           f: Payment -> int)
    ensures Sum(ApprovedFor(contracts, payments, userId), f) ==
            Sum(payments, (p: Payment) => if p.status == APPROVED && BelongsTo(contracts, p, userId) then f(p) else 0)
  {
    if payments != [] {
      var p := payments[|payments| - 1];
      SumOverApproved(contracts, payments[..|payments| - 1], userId, f);
      var shorter := ApprovedFor(contracts, payments[..|payments| - 1], userId);
      SumAppend(shorter, [p], f);
      assert [p][..0] == [] && Sum([p], f) == Sum([], f) + f(p);
      assert shorter + [] == shorter;
    }
  }

  /** The balance of a contract of the user is the same over the insight's selection and over the whole ledger. */
  lemma SelectionKeepsBalances(contracts: seq<Contract>, payments: seq<Payment>, userId: int, c: Contract)
    requires c in contracts && c.userId == Some(userId)
    ensures TotalPaid(ApprovedFor(contracts, payments, userId), c.id) == TotalPaid(payments, c.id)
  {
    SumOverApproved(contracts, payments, userId, PaidTo(c.id));
    var k :| 0 <= k < |contracts| && contracts[k] == c;
    forall p: Payment | p.contractId == c.id ensures BelongsTo(contracts, p, userId) {
      assert contracts[k].id == p.contractId;
    }
    SumAgrees(payments, (p: Payment) => if p.status == APPROVED
              && BelongsTo(contracts, p, userId) then PaidTo(c.id)(p) else 0, PaidTo(c.id));
  }

  lemma {:induction false} SelectionIsApproved(contracts: seq<Contract>, payments: seq<Payment>, userId: int)
    ensures forall p | p in ApprovedFor(contracts, payments, userId) ::
              p in payments && p.status == APPROVED && BelongsTo(contracts, p, userId)
  {
    if payments != [] {
      var init, p := payments[..|payments| - 1], payments[|payments| - 1];
      SelectionIsApproved(contracts, init, userId);
      assert payments == init + [p];
    }
  }

  /**
   What a contract of the user is reported to have paid is its total paid in the ledger,
   whatever else the ledger holds.
   */
  lemma PayerTotalIsTotalPaid(contracts: seq<Contract>, payments: seq<Payment>, userId: int, c: Contract)
    requires c in contracts && c.userId == Some(userId)
    ensures BucketAt(GroupedBy(ApprovedFor(contracts, payments, userId), (p: Payment) => p.contractId), c.id).total
            == TotalPaid(payments, c.id)
  {
    var key, selected := (p: Payment) => p.contractId, ApprovedFor(contracts, payments, userId);
    GroupHoldsItsOwn(selected, key, c.id);
    SelectionIsApproved(contracts, payments, userId);
    SumAgrees(selected, (p: Payment) => if key(p) == c.id then p.amount else 0, PaidTo(c.id));
    SelectionKeepsBalances(contracts, payments, userId, c);
  }

  /** The total of the insight summary is what the user is told to have received. */
  lemma SummaryIsReceived(contracts: seq<Contract>, payments: seq<Payment>, userId: int)
    requires LedgerInv(contracts, payments)
    ensures Sum(ApprovedFor(contracts, payments, userId), Amount) == Received(contracts, payments, userId)
  {
    var amount: Payment -> int := Amount;
    SumOverApproved(contracts, payments, userId, amount);
    forall p | p in payments
      ensures (if p.status == APPROVED && BelongsTo(contracts, p, userId) then amount(p) else 0)
              == IfOwned(contracts, userId, p, p.approvalStatus == APPROVED)
    {
      assert Coherent(p) && amount(p) == p.amount;
    }
    SumAgrees(payments,
      (p: Payment) => if p.status == APPROVED && BelongsTo(contracts, p, userId) then amount(p) else 0,
      (p: Payment) => IfOwned(contracts, userId, p, p.approvalStatus == APPROVED));
  }

  /** So however the user's insight is grouped, by month or by payer, the groups add up to the total received. */
  lemma GroupsAddUpToReceived(contracts: seq<Contract>, payments: seq<Payment>, userId: int, key: Payment -> int)
    requires LedgerInv(contracts, payments)
    ensures SumOf(GroupedBy(ApprovedFor(contracts, payments, userId), key)).total
            == Received(contracts, payments, userId)
  {
    GroupsAddUp(ApprovedFor(contracts, payments, userId), key);
    SummaryIsReceived(contracts, payments, userId);
  }

  // ---- payers -----------------------------------------------------------------------------------

  /** What is reported about one contract's payments; `span` is the days between its first and last payment. */
  datatype PayerStat = PayerStat(paid: Bucket, last: int, span: int)

  /** The payments of one contract, in order. */
  function Own(payments: seq<Payment>, id: int): seq<Payment>
  {
    if payments == [] then []
    else
      var p := payments[|payments| - 1];
      Own(payments[..|payments| - 1], id) + (if p.contractId == id then [p] else [])
  }

  function Dates(payments: seq<Payment>): (dates: seq<int>)
    ensures |dates| == |payments|
  {
    if payments == [] then [] else Dates(payments[..|payments| - 1]) + [payments[|payments| - 1].date]
  }

  function Newest(dates: seq<int>): (d: int)
    requires dates != []
    ensures IsNewest(dates, d)
  {
    var n := |dates| - 1;
    if n == 0 then dates[0] else Max(Newest(dates[..n]), dates[n])
  }

  function Oldest(dates: seq<int>): (d: int)
    requires dates != []
    ensures IsOldest(dates, d)
  {
    var n := |dates| - 1;
    if n == 0 then dates[0] else Min(Oldest(dates[..n]), dates[n])
  }

  /** One contract's own payments are its group. */
  lemma {:induction false} OwnIsGroup(payments: seq<Payment>, id: int)
    ensures Bucket(|Own(payments, id)|, Sum(Own(payments, id), Amount))
            == BucketAt(GroupedBy(payments, (p: Payment) => p.contractId), id)
    ensures Own(payments, id) != [] <==> id in GroupedBy(payments, (p: Payment) => p.contractId)
  {
    if payments != [] {
      var init, p := payments[..|payments| - 1], payments[|payments| - 1];
      OwnIsGroup(init, id);
      if p.contractId == id {
        var own := Own(payments, id);
        assert own[..|own| - 1] == Own(init, id);
      } else {
        assert Own(payments, id) == Own(init, id);
      }
    }
  }

  ghost predicate StatIsRight(payments: seq<Payment>, id: int, stat: PayerStat)
  {
    var dates := Dates(Own(payments, id));
    && stat.paid == BucketAt(GroupedBy(payments, (p: Payment) => p.contractId), id)
    && IsNewest(dates, stat.last)
    && (|dates| == 1 ==> stat.span == 0)
    && IsOldest(dates, stat.last - stat.span)
  }

  function StatOf(own: seq<Payment>): PayerStat
    requires own != []
  {
    var last := Newest(Dates(own));
    PayerStat(Bucket(|own|, Sum(own, Amount)), last, if |own| > 1 then last - Oldest(Dates(own)) else 0)
  }

  method ByContract(payments: seq<Payment>) returns (grouped: map<int, seq<Payment>>)
    ensures forall id :: id in grouped <==> Own(payments, id) != []
    ensures forall id | id in grouped :: grouped[id] == Own(payments, id)
  {
    grouped := map[];
    for i := 0 to |payments|
      invariant forall id :: id in grouped <==> Own(payments[..i], id) != []
      invariant forall id | id in grouped :: grouped[id] == Own(payments[..i], id)
    {
      assert payments[..i + 1][..i] == payments[..i];
      var id := payments[i].contractId;
      grouped := grouped[id := (if id in grouped then grouped[id] else []) + [payments[i]]];
    }
    assert payments[..|payments|] == payments;
  }

  lemma StatOfOwnIsRight(payments: seq<Payment>, id: int)
    requires Own(payments, id) != []
    ensures StatIsRight(payments, id, StatOf(Own(payments, id)))
  {
    OwnIsGroup(payments, id);
    var dates := Dates(Own(payments, id));
    if |dates| == 1 {
      assert Newest(dates) == dates[0];
    }
  }

  /** The payments grouped by contract, and each group reported. */
  method PayerStats(payments: seq<Payment>) returns (stats: map<int, PayerStat>)
    ensures forall id :: id in stats <==> id in GroupedBy(payments, (p: Payment) => p.contractId)
    ensures forall id | id in stats :: StatIsRight(payments, id, stats[id])
  {
    var grouped := ByContract(payments);
    stats := map id | id in grouped :: StatOf(grouped[id]);
    forall id ensures id in stats <==> id in GroupedBy(payments, (p: Payment) => p.contractId) {
      OwnIsGroup(payments, id);
    }
    forall id | id in stats ensures StatIsRight(payments, id, stats[id]) {
      StatOfOwnIsRight(payments, id);
    }
  }
}
