/** Exact results about the round-robin: its closed form, and when it misses a split that exists. */
module RoundRobinExact {
  import opened Prelude
  import opened RoundRobin
  import A = Arithmetic

  // ---- equal daily amounts ----------------------------------------------------

  ghost predicate AllEqual(d: seq<int>, c: int)
  {
    forall i | 0 <= i < |d| :: d[i] == c
  }

  /** What is left of the payment after t turns, when every served turn takes c. */
  function LeftAfter(amount: nat, c: int, t: nat): int
    requires c > 0
  {
    amount - c * Min(t, amount / c)
  }

  lemma TurnTakes(amount: nat, c: int, t: nat)
    requires c > 0
    ensures LeftAfter(amount, c, t) >= c <==> t < amount / c
    ensures LeftAfter(amount, c, t + 1) == LeftAfter(amount, c, t) - (if t < amount / c then c else 0)
    ensures LeftAfter(amount, c, 0) == amount
  {
    A.FitsIff(c, t + 1, amount);
    A.Next(c, t);
  }

  lemma {:induction false} EqualLeft(amount: nat, d: seq<int>, c: int, p: nat, i: nat)
    requires c > 0 && AllEqual(d, c) && i <= |d|
    ensures Left(amount, d, p, i) == LeftAfter(amount, c, p * |d| + i)
    decreases p, i
  {
    if i > 0 {
      EqualLeft(amount, d, c, p, i - 1);
      TurnTakes(amount, c, p * |d| + (i - 1));
    } else if p > 0 {
      EqualLeft(amount, d, c, p - 1, |d|);
      A.Next(|d|, p - 1);
      A.Swaps(p, |d|);
      A.Swaps(p - 1, |d|);
    } else {
      TurnTakes(amount, c, 0);
    }
  }

  /** The number of units contract i ends up with when q units go round n contracts. */
  function EqualShare(q: nat, n: nat, i: nat): nat
    requires n > 0
  {
    q / n + (if i < q % n then 1 else 0)
  }

  lemma TurnBeforeQuota(q: nat, n: nat, p: nat, i: nat)
    requires i < n
    ensures p * n + i < q <==> p < EqualShare(q, n, i)
  {
    var k := q / n;
    A.Division(q, n);
    A.Swaps(p, n);
    if p < k {
      A.Less(n, p, k);
    } else if p > k {
      A.Less(n, k, p);
    }
  }

  lemma {:induction false} EqualUnits(amount: nat, d: seq<int>, c: int, p: nat, i: nat)
    requires c > 0 && AllEqual(d, c) && i < |d|
    ensures Units(amount, d, p, i) == Min(p, EqualShare(amount / c, |d|, i))
  {
    if p > 0 {
      EqualUnits(amount, d, c, p - 1, i);
      EqualLeft(amount, d, c, p - 1, i);
      TurnTakes(amount, c, (p - 1) * |d| + i);
      TurnBeforeQuota(amount / c, |d|, p - 1, i);
    }
  }

  /** The money left is a rest of the division exactly when all the units are out. */
  lemma LeftAfterEnds(amount: nat, c: int, t: nat)
    requires c > 0
    ensures LeftAfter(amount, c, t) == 0 ==> amount % c == 0 && t >= amount / c
    ensures 0 < LeftAfter(amount, c, t) < c ==> amount % c != 0
  {
    var q, k := amount / c, Min(t, amount / c);
    A.Division(amount, c);
    if k < q {
      A.Less(c, k, q);
    }
  }

  /**
   Equal daily amounts c: the loop gives up exactly when c does not divide the
   payment, and otherwise the amount / c units go round evenly, the first ones
   getting the odd unit.
   */
  lemma EqualDailies(amount: nat, d: seq<int>, c: int)
    requires c > 0 && AllEqual(d, c) && |d| > 0 && Positive(d)
    ensures Passes(amount, d, 0).None? <==> amount % c != 0
    ensures Passes(amount, d, 0).Some? ==>
              forall i | 0 <= i < |d| ::
                Units(amount, d, Passes(amount, d, 0).value, i) == EqualShare(amount / c, |d|, i)
  {
    PassesEnd(amount, d, 0);
    match Passes(amount, d, 0) {
      case None =>
        var p: nat :| Stuck(amount, d, p);
        EqualLeft(amount, d, c, p, 0);
        LeftAfterEnds(amount, c, p * |d| + 0);
        assert d[0] == c;
      case Some(p) =>
        EqualLeft(amount, d, c, p, 0);
        LeftAfterEnds(amount, c, p * |d| + 0);
        forall i | 0 <= i < |d| ensures Units(amount, d, p, i) == EqualShare(amount / c, |d|, i) {
          EqualUnits(amount, d, c, p, i);
          TurnBeforeQuota(amount / c, |d|, p, i);
        }
    }
  }

  // ---- splits that exist --------------------------------------------------------

  /** The money of `u[i]` daily units for each of the first `n` contracts. */
  function Worth(d: seq<int>, u: seq<nat>, n: nat): int
    requires n <= |d| == |u|
  {
    if n == 0 then 0 else Worth(d, u, n - 1) + u[n - 1] * d[n - 1]
  }

  /** Some whole number of daily units per contract adds up to the payment. */
  ghost predicate Representable(amount: int, d: seq<int>)
  {
    exists u: seq<nat> :: |u| == |d| && Worth(d, u, |d|) == amount
  }

  /** Everyone's daily amount is a multiple of the one at `a`. */
  ghost predicate AllMultiples(d: seq<int>, a: nat)
    requires a < |d| && Positive(d)
  {
    forall i | 0 <= i < |d| :: d[i] % d[a] == 0
  }

  lemma {:induction false} OnlyOneWorth(d: seq<int>, a: nat, k: nat, n: nat)
    requires a < |d| && n <= |d|
    ensures Worth(d, seq(|d|, i => if i == a then k else 0), n) == if a < n then k * d[a] else 0
  {
    if n > 0 {
      OnlyOneWorth(d, a, k, n - 1);
    }
  }

  lemma MultiplesAreRepresentable(amount: nat, d: seq<int>, a: nat)
    requires a < |d| && Positive(d) && amount % d[a] == 0
    ensures Representable(amount, d)
  {
    var k := amount / d[a];
    A.Division(amount, d[a]);
    A.Swaps(k, d[a]);
    OnlyOneWorth(d, a, k, |d|);
  }

  lemma {:induction false} WorthIsMultiple(d: seq<int>, u: seq<nat>, a: nat, n: nat)
    requires Positive(d) && a < |d| == |u| && n <= |d| && AllMultiples(d, a)
    ensures Worth(d, u, n) % d[a] == 0
  {
    if n > 0 {
      WorthIsMultiple(d, u, a, n - 1);
      A.AddsMultiple(Worth(d, u, n - 1), u[n - 1], d[n - 1], d[a]);
    }
  }

  lemma {:induction false} LeftStaysCongruent(amount: int, d: seq<int>, a: nat, p: nat, i: nat)
    requires Positive(d) && a < |d| && i <= |d| && AllMultiples(d, a)
    ensures (amount - Left(amount, d, p, i)) % d[a] == 0
    decreases p, i
  {
    if i > 0 {
      LeftStaysCongruent(amount, d, a, p, i - 1);
      var before := Left(amount, d, p, i - 1);
      A.SumOfMultiples(amount - before, d[i - 1], d[a]);
      assert before >= d[i - 1] ==> amount - Left(amount, d, p, i) == (amount - before) + d[i - 1];
    } else if p > 0 {
      LeftStaysCongruent(amount, d, a, p - 1, |d|);
    }
  }

  /** If one daily amount divides all the others, the loop succeeds exactly on the payments that can be split. */
  lemma CompleteWhenAllMultiples(amount: nat, d: seq<int>, a: nat)
    requires Positive(d) && a < |d| && AllMultiples(d, a)
    ensures Passes(amount, d, 0).Some? <==> Representable(amount, d)
  {
    if Representable(amount, d) {
      var u :| |u| == |d| && Worth(d, u, |d|) == amount;
      WorthIsMultiple(d, u, a, |d|);
    }
    PassesEnd(amount, d, 0);
    match Passes(amount, d, 0) {
      case None =>
        var p: nat :| Stuck(amount, d, p);
        LeftStaysCongruent(amount, d, a, p, 0);
        if amount % d[a] == 0 {
          A.SumOfMultiples(amount, amount - Left(amount, d, p, 0), d[a]);
          A.DivisionIsUnique(Left(amount, d, p, 0), d[a], 0, Left(amount, d, p, 0));
        }
      case Some(p) =>
        LeftStaysCongruent(amount, d, a, p, 0);
        MultiplesAreRepresentable(amount, d, a);
    }
  }

  function PrefixSum(d: seq<int>, n: nat): int
    requires n <= |d|
  {
    if n == 0 then 0 else PrefixSum(d, n - 1) + d[n - 1]
  }

  lemma {:induction false} FirstPassServes(amount: int, d: seq<int>, i: nat)
    requires Positive(d) && i <= |d| && amount >= PrefixSum(d, i)
    ensures Left(amount, d, 0, i) == amount - PrefixSum(d, i)
  {
    if i > 0 {
      PrefixSumGrows(d, i - 1, i);
      FirstPassServes(amount, d, i - 1);
    }
  }

  lemma {:induction false} PrefixSumGrows(d: seq<int>, i: nat, n: nat)
    requires Positive(d) && i <= n <= |d|
    ensures PrefixSum(d, i) <= PrefixSum(d, n)
    decreases n
  {
    if i < n {
      PrefixSumGrows(d, i, n - 1);
    }
  }

  lemma {:induction false} PrefixIsMultiple(d: seq<int>, a: nat, n: nat)
    requires Positive(d) && a < |d| && n <= |d| && forall i | 0 <= i < n :: d[i] % d[a] == 0
    ensures PrefixSum(d, n) % d[a] == 0
  {
    if n > 0 {
      PrefixIsMultiple(d, a, n - 1);
      A.SumOfMultiples(PrefixSum(d, n - 1), d[n - 1], d[a]);
    }
  }

  /** The smallest multiple of m that is at least s. */
  function RoundUp(s: nat, m: nat): nat
    requires m > 0
  {
    ((s + m - 1) / m) * m
  }

  lemma RoundUpBounds(s: nat, m: nat)
    requires m > 0
    ensures s <= RoundUp(s, m) < s + m && RoundUp(s, m) % m == 0
  {
    var t := s + m - 1;
    A.Division(t, m);
    A.Swaps(m, t / m);
    A.MultipleOf(t / m, m);
  }

  /**
   A payment the loop refuses although it can be split: pay the contracts up to the
   first daily amount j that the smallest one does not divide, rounded up to a
   multiple of the smallest.
   */
  lemma MissedPayment(d: seq<int>, a: nat, j: nat) returns (amount: nat)
    requires Positive(d) && a < |d| && j < |d| && d[j] % d[a] != 0
    requires forall i | 0 <= i < |d| :: d[a] <= d[i]
    requires forall i | 0 <= i < j :: d[i] % d[a] == 0
    ensures Representable(amount, d) && Passes(amount, d, 0).None?
  {
    var m, s := d[a], PrefixSum(d, j + 1);
    PrefixSumGrows(d, 0, j + 1);
    amount := RoundUp(s, m);
    RoundUpBounds(s, m);
    MultiplesAreRepresentable(amount, d, a);
    FirstPassServes(amount, d, j + 1);
    var rest := Left(amount, d, 0, j + 1);
    if rest == 0 {
      PrefixIsMultiple(d, a, j);
      A.SumOfMultiples(s, PrefixSum(d, j), m);
    }
    RestStays(amount, d, j + 1, |d|);
    assert Stuck(amount, d, 1);
    FailsIffStuck(amount, d);
  }

  lemma {:induction false} RestStays(amount: int, d: seq<int>, i: nat, n: nat)
    requires i <= n <= |d| && forall k | i <= k < n :: Left(amount, d, 0, i) < d[k]
    ensures Left(amount, d, 0, n) == Left(amount, d, 0, i)
    decreases n
  {
    if i < n {
      RestStays(amount, d, i, n - 1);
    }
  }

  lemma {:induction false} FirstNonMultiple(d: seq<int>, m: int, j: nat) returns (k: nat)
    requires m > 0 && j < |d| && d[j] % m != 0
    ensures k <= j && d[k] % m != 0 && forall i | 0 <= i < k :: d[i] % m == 0
    decreases j
  {
    k := j;
    if i: nat :| i < j && d[i] % m != 0 {
      k := FirstNonMultiple(d, m, i);
    }
  }

  /**
   When "nothing was allocated in a full pass" really means "not a whole number of
   daily units": for every payment, exactly if the smallest daily amount divides
   every other.
   */
  lemma CompleteIffAllMultiples(d: seq<int>, a: nat)
    requires Positive(d) && a < |d| && forall i | 0 <= i < |d| :: d[a] <= d[i]
    ensures (forall amount: nat :: Representable(amount, d) ==> Passes(amount, d, 0).Some?) <==> AllMultiples(d, a)
  {
    if AllMultiples(d, a) {
      forall amount: nat | Representable(amount, d) ensures Passes(amount, d, 0).Some? {
        CompleteWhenAllMultiples(amount, d, a);
      }
    } else {
      var j :| 0 <= j < |d| && d[j] % d[a] != 0;
      var k := FirstNonMultiple(d, d[a], j);
      var amount := MissedPayment(d, a, k);
    }
  }

  /** Fourteen is two sevens, yet with daily amounts 10 and 7 the loop stops with 4 left. */
  lemma FourteenIsMissed()
    ensures Representable(14, [10, 7]) && Passes(14, [10, 7], 0).None?
  {
    var d, u: seq<nat> := [10, 7], [0, 2];
    assert Worth(d, u, 2) == Worth(d, u, 1) + 14;
    assert Left(14, d, 0, 1) == 4;
    assert Left(14, d, 0, 2) == 4;
    assert Stuck(14, d, 1);
    FailsIffStuck(14, d);
  }
}
