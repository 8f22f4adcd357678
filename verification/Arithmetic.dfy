/** The few facts about products and quotients that the other proofs use, one at a time. */
module Arithmetic {
  lemma Next(a: int, n: int)
    ensures a * (n + 1) == a * n + a
  {
  }

  lemma Distributes(a: int, m: int, n: int)
    ensures a * (m + n) == a * m + a * n
    ensures a * (m - n) == a * m - a * n
  {
  }

  lemma Swaps(a: int, b: int)
    ensures a * b == b * a
  {
  }

  lemma Regroups(a: int, b: int, c: int)
    ensures a * (b * c) == (a * b) * c
  {
  }

  lemma NonNegative(a: nat, b: nat)
    ensures a * b >= 0
  {
  }

  /** A larger factor is worth at least one more a. */
  lemma Less(a: nat, m: int, n: int)
    requires m < n
    ensures a * m + a <= a * n
  {
    NonNegative(a, n - m - 1);
    Distributes(a, n, m + 1);
    Next(a, m);
  }

  lemma AtMost(a: nat, m: int, n: int)
    requires m <= n
    ensures a * m <= a * n
  {
    if m < n {
      Less(a, m, n);
    }
  }

  lemma Division(a: int, b: int)
    requires b > 0
    ensures a == b * (a / b) + a % b && 0 <= a % b < b
  {
  }

  /** Quotient and remainder are the only numbers of their kind. */
  lemma DivisionIsUnique(a: int, b: int, q: int, r: int)
    requires b > 0 && a == b * q + r && 0 <= r < b
    ensures a / b == q && a % b == r
  {
    Division(a, b);
    if q < a / b {
      Less(b, q, a / b);
    } else if a / b < q {
      Less(b, a / b, q);
    }
  }

  lemma MultipleOf(k: int, m: int)
    requires m > 0
    ensures (m * k) % m == 0
  {
    DivisionIsUnique(m * k, m, k, 0);
  }

  lemma SumOfMultiples(x: int, y: int, m: int)
    requires m > 0 && x % m == 0 && y % m == 0
    ensures (x + y) % m == 0 && (x - y) % m == 0
  {
    Division(x, m);
    Division(y, m);
    Distributes(m, x / m, y / m);
    MultipleOf(x / m + y / m, m);
    MultipleOf(x / m - y / m, m);
  }

  lemma TimesMultiple(k: int, x: int, m: int)
    requires m > 0 && x % m == 0
    ensures (k * x) % m == 0
  {
    Division(x, m);
    Swaps(k, m * (x / m));
    Regroups(m, x / m, k);
    MultipleOf((x / m) * k, m);
  }

  lemma AddsMultiple(w: int, k: int, x: int, m: int)
    requires m > 0 && w % m == 0 && x % m == 0
    ensures (w + k * x) % m == 0
  {
    TimesMultiple(k, x, m);
    SumOfMultiples(w, k * x, m);
  }

  /** n times b fits into a exactly if n is at most the quotient. */
  lemma FitsIff(b: int, n: int, a: int)
    requires b > 0
    ensures b * n <= a <==> n <= a / b
  {
    Division(a, b);
    if n <= a / b {
      AtMost(b, n, a / b);
    } else {
      Less(b, a / b, n);
    }
  }
}
