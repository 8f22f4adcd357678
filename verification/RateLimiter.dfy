/** The sliding-window limiter of app/core/rate_limit.py against the full history of admissions. */
module RateLimiter {
  import opened Prelude

  /** Drop what has left the window from the front of the deque. */
  function Evict(bucket: seq<real>, cutoff: real): seq<real>
  {
    if bucket != [] && bucket[0] <= cutoff then Evict(bucket[1..], cutoff) else bucket
  }

  function Bucket(hits: map<string, seq<real>>, key: string): seq<real>
  {
    if key in hits then hits[key] else []
  }

  /** What one call leaves in the key's deque, and whether it is admitted. */
  function Decide(bucket: seq<real>, limit: int, window: int, now: real): (seq<real>, bool)
  {
    var kept := Evict(bucket, now - window as real);
    if |kept| >= limit then (kept, false) else (kept + [now], true)
  }

  class InMemoryRateLimitBackend {
    var hits: map<string, seq<real>>

    constructor ()
      ensures hits == map[]
    {
      hits := map[];
    }

    method Allow(key: string, limit: int, window: int, now: real) returns (admitted: bool)
      modifies this
      ensures var (kept, ok) := Decide(Bucket(old(hits), key), limit, window, now);
              hits == old(hits)[key := kept] && admitted == ok
    {
      var cutoff := now - window as real;
      var bucket := Bucket(hits, key);
      while bucket != [] && bucket[0] <= cutoff
        invariant Evict(bucket, cutoff) == Evict(Bucket(old(hits), key), cutoff)
        decreases |bucket|
      {
        bucket := bucket[1..];
      }
      if |bucket| >= limit {
        hits := hits[key := bucket];
        return false;
      }
      hits := hits[key := bucket + [now]];
      admitted := true;
    }

    method Reset()
      modifies this
      ensures hits == map[]
    {
      hits := map[];
    }
  }

  // ---- the reference: every admission ever made ---------------------------------------

  ghost predicate Sorted(h: seq<real>)
  {
    forall i, j | 0 <= i < j < |h| :: h[i] <= h[j]
  }

  /** How many entries lie in the half-open interval (lo, hi]. */
  function CountIn(h: seq<real>, lo: real, hi: real): nat
  {
    if h == [] then 0 else (if lo < h[0] <= hi then 1 else 0) + CountIn(h[1..], lo, hi)
  }

  /** Admissions `limit` apart are at least one window apart. */
  ghost predicate Spaced(h: seq<real>, limit: nat, window: int)
  {
    forall i | limit <= i < |h| :: h[i - limit] <= h[i] - window as real
  }

  lemma {:induction false} EvictSuffix(h: seq<real>, cutoff: real)
    ensures |Evict(h, cutoff)| <= |h| && Evict(h, cutoff) == h[|h| - |Evict(h, cutoff)|..]
    ensures forall i | 0 <= i < |h| - |Evict(h, cutoff)| :: h[i] <= cutoff
    ensures |Evict(h, cutoff)| > 0 ==> cutoff < Evict(h, cutoff)[0]
  {
    if h != [] && h[0] <= cutoff {
      EvictSuffix(h[1..], cutoff);
      forall i | 0 <= i < |h| - |Evict(h, cutoff)| ensures h[i] <= cutoff {
        if i > 0 {
          assert h[1..][i - 1] == h[i];
        }
      }
    }
  }

  lemma {:induction false} EvictTwice(h: seq<real>, earlier: real, later: real)
    requires earlier <= later
    ensures Evict(Evict(h, earlier), later) == Evict(h, later)
  {
    if h != [] && h[0] <= earlier {
      EvictTwice(h[1..], earlier, later);
    }
  }

  lemma {:induction false} EvictAppend(h: seq<real>, cutoff: real, now: real)
    requires cutoff < now
    ensures Evict(h + [now], cutoff) == Evict(h, cutoff) + [now]
  {
    if h == [] {
      assert h + [now] == [now];
    } else {
      assert (h + [now])[1..] == h[1..] + [now];
      if h[0] <= cutoff {
        EvictAppend(h[1..], cutoff, now);
      }
    }
  }

  lemma {:induction false} AllInside(h: seq<real>, lo: real, hi: real)
    requires forall i | 0 <= i < |h| :: lo < h[i] <= hi
    ensures CountIn(h, lo, hi) == |h|
  {
    if h != [] {
      AllInside(h[1..], lo, hi);
    }
  }

  lemma {:induction false} NoneInside(h: seq<real>, lo: real, hi: real)
    requires forall i | 0 <= i < |h| :: h[i] <= lo || hi < h[i]
    ensures CountIn(h, lo, hi) == 0
  {
    if h != [] {
      NoneInside(h[1..], lo, hi);
    }
  }

  lemma {:induction false} CountSplit(a: seq<real>, b: seq<real>, lo: real, hi: real)
    ensures CountIn(a + b, lo, hi) == CountIn(a, lo, hi) + CountIn(b, lo, hi)
  {
    if a == [] {
      assert a + b == b;
    } else {
      assert (a + b)[1..] == a[1..] + b;
      CountSplit(a[1..], b, lo, hi);
    }
  }

  lemma CountSplitAt(h: seq<real>, n: nat, lo: real, hi: real)
    requires n <= |h|
    ensures CountIn(h, lo, hi) == CountIn(h[..n], lo, hi) + CountIn(h[n..], lo, hi)
  {
    assert h[..n] + h[n..] == h;
    CountSplit(h[..n], h[n..], lo, hi);
  }

  lemma {:induction false} CountAtMostLength(h: seq<real>, lo: real, hi: real)
    ensures CountIn(h, lo, hi) <= |h|
  {
    if h != [] {
      CountAtMostLength(h[1..], lo, hi);
    }
  }

  /** The length of the deque is the count over the whole history. */
  lemma EvictCounts(h: seq<real>, cutoff: real, now: real)
    requires Sorted(h) && forall i | 0 <= i < |h| :: h[i] <= now
    ensures |Evict(h, cutoff)| == CountIn(h, cutoff, now)
  {
    EvictSuffix(h, cutoff);
    var n := |h| - |Evict(h, cutoff)|;
    CountSplitAt(h, n, cutoff, now);
    NoneInside(h[..n], cutoff, now);
    AllInside(h[n..], cutoff, now);
  }

  /** No window of any position holds more than the limit. */
  lemma {:induction false} EveryWindowWithinLimit(h: seq<real>, limit: nat, window: int, t: real)
    requires Sorted(h) && Spaced(h, limit, window)
    ensures CountIn(h, t - window as real, t) <= limit
  {
    var lo := t - window as real;
    if h == [] {
    } else if h[0] <= lo {
      assert Spaced(h[1..], limit, window) by {
        forall i | limit <= i < |h[1..]| ensures h[1..][i - limit] <= h[1..][i] - window as real {
          assert h[i + 1 - limit] <= h[i + 1] - window as real;
        }
      }
      EveryWindowWithinLimit(h[1..], limit, window, t);
    } else if |h| <= limit {
      CountAtMostLength(h, lo, t);
    } else {
      assert h[limit - limit] <= h[limit] - window as real;
      CountSplitAt(h, limit, lo, t);
      CountAtMostLength(h[..limit], lo, t);
      NoneInside(h[limit..], lo, t);
    }
  }

  // ---- any sequence of calls -------------------------------------------------------------

  datatype Call = Call(key: string, now: real)

  /** One limit and one window per key. */
  datatype Policy = Policy(limit: string -> int, window: string -> int)

  ghost predicate GoodPolicy(policy: Policy)
  {
    forall key :: policy.window(key) > 0
  }

  ghost predicate InOrder(calls: seq<Call>)
  {
    forall i, j | 0 <= i < j < |calls| :: calls[i].now <= calls[j].now
  }

  /** The deques after the calls. */
  function Hits(policy: Policy, calls: seq<Call>): map<string, seq<real>>
  {
    if calls == [] then map[]
    else
      var c, hits := calls[|calls| - 1], Hits(policy, calls[..|calls| - 1]);
      hits[c.key := Decide(Bucket(hits, c.key), policy.limit(c.key), policy.window(c.key), c.now).0]
  }

  /** The deque of one key after the calls. */
  function Deque(policy: Policy, calls: seq<Call>, key: string): seq<real>
  {
    Bucket(Hits(policy, calls), key)
  }

  /** Whether call number k is admitted by the deques. */
  predicate Admitted(policy: Policy, calls: seq<Call>, k: nat)
    requires k < |calls|
  {
    var c := calls[k];
    Decide(Deque(policy, calls[..k], c.key), policy.limit(c.key), policy.window(c.key), c.now).1
  }

  /** All admission times of one key, oldest first. */
  function History(policy: Policy, calls: seq<Call>, key: string): seq<real>
  {
    if calls == [] then []
    else
      var n := |calls| - 1;
      History(policy, calls[..n], key)
      + (if calls[n].key == key && Admitted(policy, calls, n) then [calls[n].now] else [])
  }

  /** A key's deque against its history, when the last call came no later than `now`. */
  ghost predicate InSync(h: seq<real>, bucket: seq<real>, limit: int, window: int, now: real)
  {
    && Sorted(h) && (forall i | 0 <= i < |h| :: h[i] <= now)
    && Spaced(h, Max(limit, 0), window)
    && Evict(bucket, now - window as real) == Evict(h, now - window as real)
  }

  lemma TimeKeepsSync(h: seq<real>, bucket: seq<real>, limit: int, window: int, now: real, later: real)
    requires InSync(h, bucket, limit, window, now) && now <= later
    ensures InSync(h, bucket, limit, window, later)
  {
    EvictTwice(bucket, now - window as real, later - window as real);
    EvictTwice(h, now - window as real, later - window as real);
  }

  /** Admitting at `now` with room in the window keeps admissions spaced. */
  lemma SpacedAppend(h: seq<real>, limit: nat, window: int, now: real)
    requires Sorted(h) && Spaced(h, limit, window) && |Evict(h, now - window as real)| < limit
    ensures Spaced(h + [now], limit, window)
  {
    EvictSuffix(h, now - window as real);
    forall i | limit <= i < |h + [now]| ensures (h + [now])[i - limit] <= (h + [now])[i] - window as real {
      if i < |h| {
        assert h[i - limit] <= h[i] - window as real;
      }
    }
  }

  /** One call keeps the two in step, and leaves the deque equal to the window of the history. */
  lemma CallKeepsSync(h: seq<real>, bucket: seq<real>, limit: int, window: int, now: real)
    requires window > 0 && InSync(h, bucket, limit, window, now)
    ensures var decision := Decide(bucket, limit, window, now);
            var h' := if decision.1 then h + [now] else h;
            InSync(h', decision.0, limit, window, now) && decision.0 == Evict(h', now - window as real)
  {
    var cutoff := now - window as real;
    EvictTwice(h, cutoff, cutoff);
    if |Evict(bucket, cutoff)| < limit {
      SpacedAppend(h, limit, window, now);
      EvictAppend(h, cutoff, now);
      EvictAppend(Evict(h, cutoff), cutoff, now);
    }
  }

  /** What the last call does to one key. */
  lemma LastCall(policy: Policy, calls: seq<Call>, key: string)
    requires calls != []
    ensures var init, c := calls[..|calls| - 1], calls[|calls| - 1];
            var decision := Decide(Deque(policy, init, key), policy.limit(key), policy.window(key), c.now);
            && Deque(policy, calls, key) == (if c.key == key then decision.0 else Deque(policy, init, key))
            && History(policy, calls, key) ==
               (if c.key == key && decision.1 then History(policy, init, key) + [c.now] else History(policy, init, key))
  {
  }

  lemma {:induction false} KeysStayInSync(policy: Policy, calls: seq<Call>, key: string, now: real)
    requires GoodPolicy(policy) && InOrder(calls) && (calls != [] ==> calls[|calls| - 1].now <= now)
    ensures InSync(History(policy, calls, key), Deque(policy, calls, key), policy.limit(key), policy.window(key), now)
    decreases |calls|
  {
    if calls != [] {
      var n := |calls| - 1;
      var init, c := calls[..n], calls[n];
      KeysStayInSync(policy, init, key, c.now);
      LastCall(policy, calls, key);
      if c.key == key {
        CallKeepsSync(History(policy, init, key), Deque(policy, init, key), policy.limit(key), policy.window(key),
                      c.now);
      }
      TimeKeepsSync(History(policy, calls, key), Deque(policy, calls, key), policy.limit(key), policy.window(key),
                    c.now, now);
    }
  }

  /**
   Every decision is the one the full history would give: a call is admitted exactly
   if fewer than `limit` admissions of its key lie in the window (now - w, now].
   */
  lemma DecisionsMatchHistory(policy: Policy, calls: seq<Call>, k: nat)
    requires GoodPolicy(policy) && InOrder(calls) && k < |calls|
    ensures var c := calls[k];
            Admitted(policy, calls, k) <==>
              CountIn(History(policy, calls[..k], c.key), c.now - policy.window(c.key) as real,
                      c.now) < policy.limit(c.key)
  {
    var c, w := calls[k], policy.window(calls[k].key) as real;
    KeysStayInSync(policy, calls[..k], c.key, c.now);
    EvictCounts(History(policy, calls[..k], c.key), c.now - w, c.now);
  }

  /** Right after a call of the key the deque is exactly the part of the history inside the window. */
  lemma DequeIsWindowOfHistory(policy: Policy, calls: seq<Call>, key: string, now: real)
    returns (deque: seq<real>, h: seq<real>)
    requires GoodPolicy(policy) && InOrder(calls) && calls != [] && calls[|calls| - 1] == Call(key, now)
    ensures deque == Deque(policy, calls, key) && h == History(policy, calls, key)
    ensures deque == Evict(h, now - policy.window(key) as real)
  {
    var init := calls[..|calls| - 1];
    deque, h := Deque(policy, calls, key), History(policy, calls, key);
    assert InOrder(init) && (init != [] ==> init[|init| - 1].now <= now);
    KeysStayInSync(policy, init, key, now);
    LastCall(policy, calls, key);
    assert deque == Decide(Deque(policy, init, key), policy.limit(key), policy.window(key), now).0;
    DequeIsWindow(History(policy, init, key), Deque(policy, init, key), h, deque, policy.limit(key),
                  policy.window(key), now);
  }

  lemma DequeIsWindow(h: seq<real>, bucket: seq<real>, h': seq<real>, bucket': seq<real>, limit: int, window: int,
                      now: real)
    requires window > 0 && InSync(h, bucket, limit, window, now)
    requires bucket' == Decide(bucket, limit, window, now).0
    requires h' == if Decide(bucket, limit, window, now).1 then h + [now] else h
    ensures bucket' == Evict(h', now - window as real)
  {
    CallKeepsSync(h, bucket, limit, window, now);
  }

  /** Whatever the calls, no half-open window of a key ever holds more than its limit. */
  lemma NoWindowOverLimit(policy: Policy, calls: seq<Call>, key: string, t: real)
    requires GoodPolicy(policy) && InOrder(calls)
    ensures CountIn(History(policy, calls, key), t - policy.window(key) as real, t) <= Max(policy.limit(key), 0)
  {
    if calls != [] {
      KeysStayInSync(policy, calls, key, calls[|calls| - 1].now);
      EveryWindowWithinLimit(History(policy, calls, key), Max(policy.limit(key), 0), policy.window(key), t);
    }
  }

  /** A call is turned away only when its window is full, to the last place. */
  lemma RejectionMeansFull(policy: Policy, calls: seq<Call>, k: nat)
    requires GoodPolicy(policy) && InOrder(calls) && k < |calls| && !Admitted(policy, calls, k)
    ensures var c := calls[k];
            CountIn(History(policy, calls[..k], c.key), c.now - policy.window(c.key) as real, c.now)
                == Max(policy.limit(c.key), 0)
  {
    DecisionsMatchHistory(policy, calls, k);
    NoWindowOverLimit(policy, calls[..k], calls[k].key, calls[k].now);
  }
}
