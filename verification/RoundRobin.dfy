/**
 What the round-robin of app/services/payment_allocation_service.py computes,
 turn by turn, and the laws it obeys. Amounts are whole cents; `d` lists the daily
 amounts of the eligible contracts in order.
 */
module RoundRobin {
  import opened Prelude
  import A = Arithmetic

  ghost predicate Positive(d: seq<int>)
  {
    forall i | 0 <= i < |d| :: d[i] > 0
  }

  /** The money left before the turn of contract `i` in pass `p`. */
  function Left(amount: int, d: seq<int>, p: nat, i: nat): int
    requires i <= |d|
    decreases p, i
  {
    if i > 0 then
      var before := Left(amount, d, p, i - 1);
      if before >= d[i - 1] then before - d[i - 1] else before
    else if p > 0 then Left(amount, d, p - 1, |d|)
    else amount
  }

  /** Contract `i` gets one daily amount in pass `p`. */
  predicate Served(amount: int, d: seq<int>, p: nat, i: nat)
    requires i < |d|
  {
    Left(amount, d, p, i) >= d[i]
  }

  /** How many of the first `p` passes served contract `i`. */
  function Units(amount: int, d: seq<int>, p: nat, i: nat): (n: nat)
    requires i < |d|
    ensures n <= p
  {
    if p == 0 then 0 else Units(amount, d, p - 1, i) + (if Served(amount, d, p - 1, i) then 1 else 0)
  }

  /** The money handed to the first `n` contracts in the first `p` passes. */
  function Given(amount: int, d: seq<int>, p: nat, n: nat): int
    requires n <= |d|
  {
    if n == 0 then 0 else Given(amount, d, p, n - 1) + d[n - 1] * Units(amount, d, p, n - 1)
  }

  // ---- one pass -------------------------------------------------------------

  lemma {:induction false} LeftNeverGrows(amount: int, d: seq<int>, p: nat, i: nat, j: nat)
    requires Positive(d) && i <= j <= |d|
    ensures Left(amount, d, p, j) <= Left(amount, d, p, i)
    ensures Left(amount, d, p, i) >= 0 ==> Left(amount, d, p, j) >= 0
    ensures Left(amount, d, p, i) <= 0 ==> Left(amount, d, p, j) == Left(amount, d, p, i)
    decreases j
  {
    if i < j {
      LeftNeverGrows(amount, d, p, i, j - 1);
    }
  }

  /** Once nothing is left, the rest of the pass serves nobody. */
  lemma RestServesNobody(amount: int, d: seq<int>, p: nat, i: nat)
    requires Positive(d) && i <= |d| && Left(amount, d, p, i) <= 0
    ensures Left(amount, d, p, |d|) == Left(amount, d, p, i)
    ensures forall k | i <= k < |d| :: Units(amount, d, p + 1, k) == Units(amount, d, p, k)
  {
    LeftNeverGrows(amount, d, p, i, |d|);
    forall k | i <= k < |d| ensures Units(amount, d, p + 1, k) == Units(amount, d, p, k) {
      LeftNeverGrows(amount, d, p, i, k);
    }
  }

  lemma {:induction false} LaterPassHasLess(amount: int, d: seq<int>, p: nat, q: nat)
    requires Positive(d) && p <= q
    ensures Left(amount, d, q, 0) <= Left(amount, d, p, 0)
    ensures Left(amount, d, p, 0) >= 0 ==> Left(amount, d, q, 0) >= 0
    decreases q
  {
    if p < q {
      LaterPassHasLess(amount, d, p, q - 1);
      LeftNeverGrows(amount, d, q - 1, 0, |d|);
    }
  }

  /** Time order of turns: less is left at every later turn. */
  lemma LaterTurnHasLess(amount: int, d: seq<int>, p: nat, i: nat, q: nat, j: nat)
    requires Positive(d) && i <= |d| && j <= |d|
    requires p < q || (p == q && i <= j)
    ensures Left(amount, d, q, j) <= Left(amount, d, p, i)
  {
    if p == q {
      LeftNeverGrows(amount, d, p, i, j);
    } else {
      LeftNeverGrows(amount, d, p, i, |d|);
      LaterPassHasLess(amount, d, p + 1, q);
      LeftNeverGrows(amount, d, q, 0, j);
    }
  }

  /** A pass that leaves the money unchanged served nobody. */
  lemma {:induction false} IdlePassServesNobody(amount: int, d: seq<int>, p: nat, i: nat)
    requires Positive(d) && i < |d| && Left(amount, d, p + 1, 0) == Left(amount, d, p, 0)
    ensures Left(amount, d, p, i) == Left(amount, d, p, 0) < d[i]
  {
    LeftNeverGrows(amount, d, p, 0, i);
    LeftNeverGrows(amount, d, p, i + 1, |d|);
  }

  // ---- shares ---------------------------------------------------------------

  /** Each contract is served in a prefix of the passes: once passed over, passed over for good. */
  lemma {:induction false} ServedInPrefix(amount: int, d: seq<int>, passes: nat, p: nat, i: nat)
    requires Positive(d) && i < |d| && p < passes
    ensures Served(amount, d, p, i) <==> p < Units(amount, d, passes, i)
    decreases passes
  {
    if Served(amount, d, passes - 1, i) {
      LaterTurnHasLess(amount, d, p, i, passes - 1, i);
      AllServed(amount, d, passes, i);
    } else if p < passes - 1 {
      ServedInPrefix(amount, d, passes - 1, p, i);
    }
  }

  lemma {:induction false} AllServed(amount: int, d: seq<int>, passes: nat, i: nat)
    requires Positive(d) && i < |d| && (passes > 0 ==> Served(amount, d, passes - 1, i))
    ensures Units(amount, d, passes, i) == passes
  {
    if passes > 1 {
      LaterTurnHasLess(amount, d, passes - 2, i, passes - 1, i);
      AllServed(amount, d, passes - 1, i);
    }
  }

  /** If j is served in pass p, so is every contract before it that asks for no more per day. */
  lemma EarlierServedToo(amount: int, d: seq<int>, p: nat, i: nat, j: nat)
    requires Positive(d) && i <= j < |d| && d[i] <= d[j] && Served(amount, d, p, j)
    ensures Served(amount, d, p, i)
  {
    LaterTurnHasLess(amount, d, p, i, p, j);
  }

  /** If j is served in pass p, every contract that asks for no more per day was served in the pass before. */
  lemma ServedOnePassEarlier(amount: int, d: seq<int>, p: nat, i: nat, j: nat)
    requires Positive(d) && i < |d| && j < |d| && d[i] <= d[j] && p > 0 && Served(amount, d, p, j)
    ensures Served(amount, d, p - 1, i)
  {
    LaterTurnHasLess(amount, d, p - 1, i, p, j);
  }

  /**
   Fairness: whoever asks for no more per day than contract j falls at most one
   unit behind it, and not behind at all when it also comes first.
   */
  lemma Fairness(amount: int, d: seq<int>, passes: nat, i: nat, j: nat)
    requires Positive(d) && i < |d| && j < |d| && d[i] <= d[j]
    ensures Units(amount, d, passes, i) >= Units(amount, d, passes, j) - 1
    ensures i <= j ==> Units(amount, d, passes, i) >= Units(amount, d, passes, j)
  {
    var u := Units(amount, d, passes, j);
    if u > 0 {
      ServedInPrefix(amount, d, passes, u - 1, j);
      if i <= j {
        EarlierServedToo(amount, d, u - 1, i, j);
        ServedInPrefix(amount, d, passes, u - 1, i);
      } else if u > 1 {
        ServedOnePassEarlier(amount, d, u - 1, i, j);
        ServedInPrefix(amount, d, passes, u - 2, i);
      }
    }
  }

  lemma {:induction false} PassConserves(amount: int, d: seq<int>, p: nat, n: nat)
    requires n <= |d|
    ensures Given(amount, d, p + 1, n) == Given(amount, d, p, n) + Left(amount, d, p, 0) - Left(amount, d, p, n)
  {
    if n > 0 {
      PassConserves(amount, d, p, n - 1);
      var u := Units(amount, d, p, n - 1);
      A.Next(d[n - 1], u);
    }
  }

  lemma {:induction false} NothingGivenYet(amount: int, d: seq<int>, n: nat)
    requires n <= |d|
    ensures Given(amount, d, 0, n) == 0
  {
    if n > 0 {
      NothingGivenYet(amount, d, n - 1);
    }
  }

  /** Conservation: what was handed out and what is left make up the payment. */
  lemma {:induction false} Conservation(amount: int, d: seq<int>, p: nat)
    ensures Given(amount, d, p, |d|) + Left(amount, d, p, 0) == amount
  {
    if p == 0 {
      NothingGivenYet(amount, d, |d|);
    } else {
      Conservation(amount, d, p - 1);
      PassConserves(amount, d, p - 1, |d|);
    }
  }

  // ---- when the loop ends -----------------------------------------------------

  /** The number of full passes after which the loop stops with nothing left, or None if a pass gets stuck. */
  function Passes(amount: int, d: seq<int>, p: nat): (r: Option<nat>)
    requires Positive(d)
    decreases if Left(amount, d, p, 0) > 0 then Left(amount, d, p, 0) else 0
  {
    LeftNeverGrows(amount, d, p, 0, |d|);
    if Left(amount, d, p, 0) <= 0 then Some(p)
    else if Left(amount, d, p + 1, 0) == Left(amount, d, p, 0) then None
    else Passes(amount, d, p + 1)
  }

  lemma {:induction false} PassesEnd(amount: int, d: seq<int>, p: nat)
    requires Positive(d)
    ensures var r := Passes(amount, d, p);
            && (r.Some? ==> r.value >= p && Left(amount, d, r.value, 0) <= 0)
            && (r.Some? && Left(amount, d, p, 0) >= 0 ==> Left(amount, d, r.value, 0) == 0)
            && (r.None? ==> exists q: nat :: Stuck(amount, d, q))
    decreases if Left(amount, d, p, 0) > 0 then Left(amount, d, p, 0) else 0
  {
    LeftNeverGrows(amount, d, p, 0, |d|);
    if Left(amount, d, p, 0) <= 0 {
    } else if Left(amount, d, p + 1, 0) == Left(amount, d, p, 0) {
      forall i | 0 <= i < |d| ensures Left(amount, d, p, 0) < d[i] {
        IdlePassServesNobody(amount, d, p, i);
      }
      assert Stuck(amount, d, p);
    } else {
      PassesEnd(amount, d, p + 1);
    }
  }

  /** Pass `p` starts with money left, but less than every daily amount. */
  ghost predicate Stuck(amount: int, d: seq<int>, p: nat)
  {
    Left(amount, d, p, 0) > 0 && forall i | 0 <= i < |d| :: Left(amount, d, p, 0) < d[i]
  }

  lemma {:induction false} StuckPassIsIdle(amount: int, d: seq<int>, p: nat, i: nat)
    requires Stuck(amount, d, p) && i <= |d|
    ensures Left(amount, d, p, i) == Left(amount, d, p, 0)
  {
    if i > 0 {
      StuckPassIsIdle(amount, d, p, i - 1);
    }
  }

  lemma {:induction false} StuckForever(amount: int, d: seq<int>, p: nat, q: nat)
    requires Stuck(amount, d, p) && p <= q
    ensures Stuck(amount, d, q) && Left(amount, d, q, 0) == Left(amount, d, p, 0)
    decreases q
  {
    if p < q {
      StuckForever(amount, d, p, q - 1);
      StuckPassIsIdle(amount, d, q - 1, |d|);
    }
  }

  /** The loop gives up exactly on payments that come down to a positive rest below every daily amount. */
  lemma FailsIffStuck(amount: int, d: seq<int>)
    requires Positive(d)
    ensures Passes(amount, d, 0).None? <==> exists p: nat :: Stuck(amount, d, p)
  {
    PassesEnd(amount, d, 0);
    if p: nat :| Stuck(amount, d, p) {
      if Passes(amount, d, 0).Some? {
        var q := Passes(amount, d, 0).value;
        if p <= q {
          StuckForever(amount, d, p, q);
        } else {
          LaterPassHasLess(amount, d, q, p);
        }
      }
    }
  }
}
