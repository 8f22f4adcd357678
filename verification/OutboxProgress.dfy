/** What becomes of a row: abandoned rows come back, and every row given its turns is settled. */
module OutboxProgress {
  import opened OutboxTable
  import opened OutboxProtocol
  import opened OutboxSafety
  import opened OutboxWaiting

  // ---- abandoned rows ------------------------------------------------------------------------

  /** PROCESSING, and no worker is at it. */
  ghost predicate Orphaned(s: System, id: Id)
  {
    id in s.rows && s.rows[id].status == PROCESSING && forall r :: !(InFlight(At(s, r)) && OnRow(At(s, r), id))
  }

  ghost predicate Rescues(cfg: Config, s: System, l: Label, id: Id)
  {
    l.Recover? && id in s.rows && s.rows[id].updatedAt < s.now - cfg.timeout
  }

  lemma StepKeepsOrphan(cfg: Config, s: System, l: Label, id: Id)
    requires Inv(cfg, s) && Enabled(cfg, s, l) && Orphaned(s, id) && !Rescues(cfg, s, l, id)
    ensures Orphaned(Apply(cfg, s, l), id) && Apply(cfg, s, l).rows[id] == s.rows[id]
  {
    var s' := Apply(cfg, s, l);
    if l.Begin? {
      assert Holder(s) == At(s, l.r) && !OnRow(At(s, l.r), id);
    }
    forall r ensures !(InFlight(At(s', r)) && OnRow(At(s', r), id)) {
      assert !(InFlight(At(s, r)) && OnRow(At(s, r), id));
    }
  }

  /**
   A row that lost its worker stays exactly as it is until the first recovery later than
   the timeout, and that recovery makes it PENDING and due, with the lost attempt counted.
   */
  lemma {:induction false} OrphanIsRecovered(cfg: Config, states: seq<System>, labels: seq<Label>, id: Id, i: nat,
                                             j: nat)
    requires IsRun(cfg, states, labels) && i <= j < |labels|
    requires Orphaned(states[i], id) && Rescues(cfg, states[j], labels[j], id)
    requires forall n | i <= n < j :: !Rescues(cfg, states[n], labels[n], id)
    ensures forall n | i <= n <= j :: id in states[n].rows && states[n].rows[id] == states[i].rows[id]
    ensures id in states[j + 1].rows && states[j + 1].rows[id] == RecoveredRow(states[i].rows[id], states[j].now)
  {
    forall n | i <= n <= j ensures Orphaned(states[n], id) && states[n].rows[id] == states[i].rows[id] {
      OrphanStays(cfg, states, labels, id, i, n);
    }
  }

  lemma {:induction false} OrphanStays(cfg: Config, states: seq<System>, labels: seq<Label>, id: Id, i: nat, n: nat)
    requires IsRun(cfg, states, labels) && i <= n <= |labels| && Orphaned(states[i], id)
    requires forall m | i <= m < n :: !Rescues(cfg, states[m], labels[m], id)
    ensures Orphaned(states[n], id) && states[n].rows[id] == states[i].rows[id]
    decreases n
  {
    if i < n {
      OrphanStays(cfg, states, labels, id, i, n - 1);
      ReachableInv(cfg, states, labels, n - 1);
      StepKeepsOrphan(cfg, states[n - 1], labels[n - 1], id);
    }
  }

  // ---- settled rows --------------------------------------------------------------------------

  predicate Settled(row: Row)
  {
    row.status == SENT || row.status == FAILED || row.status == DISCARDED
  }

  /** The attempts of this epoch that came to nothing. */
  function Used(s: System, id: Id): nat
  {
    HistoryOf(s, id).fails + HistoryOf(s, id).abandoned
  }

  ghost predicate InHand(s: System, id: Id)
  {
    PhaseOn(Holder(s), id) != AtTop
  }

  /** Since `used` attempts were used up, the row was settled, or is being attempted, or used up another one. */
  ghost predicate Advanced(s: System, id: Id, used: nat)
  {
    id in s.rows && Used(s, id) >= used && (Settled(s.rows[id]) || InHand(s, id) || Used(s, id) > used)
  }

  lemma StepKeepsUsed(cfg: Config, s: System, l: Label, id: Id)
    requires Inv(cfg, s) && Enabled(cfg, s, l) && !Happens(Restarting, s, l, id)
    ensures Used(Apply(cfg, s, l), id) >= Used(s, id)
  {
    StepCountsEpoch(cfg, s, l, id);
  }

  lemma StepKeepsSettled(cfg: Config, s: System, l: Label, id: Id)
    requires Inv(cfg, s) && Enabled(cfg, s, l) && !Happens(Restarting, s, l, id)
    requires id in s.rows && Settled(s.rows[id])
    ensures id in Apply(cfg, s, l).rows && Settled(Apply(cfg, s, l).rows[id])
  {
  }

  /** An attempt ends with the row settled or with one more attempt used up. */
  lemma StepEndsAttempt(cfg: Config, s: System, l: Label, id: Id)
    requires Inv(cfg, s) && Enabled(cfg, s, l) && !Happens(Restarting, s, l, id)
    requires id in s.rows && InHand(s, id)
    ensures var s' := Apply(cfg, s, l);
            id in s'.rows && (InHand(s', id) || Settled(s'.rows[id]) || Used(s', id) > Used(s, id))
  {
    StepCountsEpoch(cfg, s, l, id);
    assert RowKept(cfg, s, id);
    var h := Holder(s);
    assert s.lock.Some? && At(s, s.lock.value) == h;
    if l.Record? || l.Raise? || l.Crash? {
      if InPass(At(s, l.r)) {
        assert At(s, l.r) == h;
      }
    }
  }

  lemma StepKeepsAdvanced(cfg: Config, s: System, l: Label, id: Id, used: nat)
    requires Inv(cfg, s) && Enabled(cfg, s, l) && !Happens(Restarting, s, l, id) && Advanced(s, id, used)
    ensures Advanced(Apply(cfg, s, l), id, used)
  {
    StepKeepsUsed(cfg, s, l, id);
    if Settled(s.rows[id]) {
      StepKeepsSettled(cfg, s, l, id);
    } else if InHand(s, id) {
      StepEndsAttempt(cfg, s, l, id);
    } else {
      RowStaysInTable(cfg, s, l, id);
    }
  }

  lemma RowStaysInTable(cfg: Config, s: System, l: Label, id: Id)
    requires Enabled(cfg, s, l) && id in s.rows
    ensures id in Apply(cfg, s, l).rows
  {
  }

  lemma AttemptTakesInHand(cfg: Config, s: System, l: Label, id: Id)
    requires Inv(cfg, s) && Enabled(cfg, s, l) && Attempts(s, l, id)
    ensures id in Apply(cfg, s, l).rows && InHand(Apply(cfg, s, l), id)
  {
    assert Holder(s) == At(s, l.r) && Holder(Apply(cfg, s, l)) == At(s, l.r).(phase := Marked);
  }

  /** A stretch without restart in which the row is attempted gets it further. */
  lemma {:induction false} StretchAdvances(cfg: Config, states: seq<System>, labels: seq<Label>, id: Id, a: nat,
                                           n: nat, b: nat)
    requires IsRun(cfg, states, labels) && a <= n < b <= |labels| && Attempts(states[n], labels[n], id)
    requires forall m | a <= m < b :: !Happens(Restarting, states[m], labels[m], id)
    ensures Advanced(states[b], id, Used(states[a], id))
    decreases b
  {
    ReachableInv(cfg, states, labels, b - 1);
    if n == b - 1 {
      UsedGrows(cfg, states, labels, id, a, n);
      StepKeepsUsed(cfg, states[n], labels[n], id);
      AttemptTakesInHand(cfg, states[n], labels[n], id);
    } else {
      StretchAdvances(cfg, states, labels, id, a, n, b - 1);
      StepKeepsAdvanced(cfg, states[b - 1], labels[b - 1], id, Used(states[a], id));
    }
  }

  lemma {:induction false} UsedGrows(cfg: Config, states: seq<System>, labels: seq<Label>, id: Id, a: nat, b: nat)
    requires IsRun(cfg, states, labels) && a <= b <= |labels|
    requires forall m | a <= m < b :: !Happens(Restarting, states[m], labels[m], id)
    ensures Used(states[b], id) >= Used(states[a], id)
    decreases b
  {
    if a < b {
      UsedGrows(cfg, states, labels, id, a, b - 1);
      ReachableInv(cfg, states, labels, b - 1);
      StepKeepsUsed(cfg, states[b - 1], labels[b - 1], id);
    }
  }

  lemma {:induction false} SettledStays(cfg: Config, states: seq<System>, labels: seq<Label>, id: Id, a: nat, b: nat)
    requires IsRun(cfg, states, labels) && a <= b <= |labels|
    requires forall m | a <= m < b :: !Happens(Restarting, states[m], labels[m], id)
    requires id in states[a].rows && Settled(states[a].rows[id])
    ensures id in states[b].rows && Settled(states[b].rows[id])
    decreases b
  {
    if a < b {
      SettledStays(cfg, states, labels, id, a, b - 1);
      ReachableInv(cfg, states, labels, b - 1);
      StepKeepsSettled(cfg, states[b - 1], labels[b - 1], id);
    }
  }

  // ---- the bound ------------------------------------------------------------------------------

  /** The complete passes between states a and b. */
  function PassesBetween(states: seq<System>, labels: seq<Label>, a: nat, b: nat): nat
    requires a <= b <= |labels| < |states|
  {
    Watched(states[a..b + 1], labels[a..b], b - a).passes
  }

  /** From a to b the row gets its turn: it is due at a, and the passes suffice to reach it. */
  ghost predicate HasTurn(cfg: Config, states: seq<System>, labels: seq<Label>, id: Id, a: nat, b: nat)
    requires a <= b <= |labels| < |states| && cfg.batchSize >= 1
  {
    && id in states[a].rows
    && Waiting(states[a], id, states[a].rows[id].availableAt)
    && PassesBetween(states, labels, a, b)
       >= |Ahead(states[a].rows, id, states[a].rows[id].availableAt)| / cfg.batchSize + 1
  }

  lemma StretchIsTrace(cfg: Config, states: seq<System>, labels: seq<Label>, a: nat, b: nat)
    requires IsTrace(cfg, states, labels) && a <= b <= |labels|
    ensures IsTrace(cfg, states[a..b + 1], labels[a..b])
  {
    var sub, steps := states[a..b + 1], labels[a..b];
    forall i | 0 <= i < |steps| ensures Enabled(cfg, sub[i], steps[i]) && sub[i + 1] == Apply(cfg, sub[i], steps[i]) {
      assert sub[i] == states[a + i] && steps[i] == labels[a + i] && sub[i + 1] == states[a + i + 1];
    }
  }

  /** In its turn the row is attempted. */
  lemma TurnAttempts(cfg: Config, states: seq<System>, labels: seq<Label>, id: Id, a: nat, b: nat) returns (n: nat)
    requires IsRun(cfg, states, labels) && a <= b <= |labels| && cfg.batchSize >= 1
             && HasTurn(cfg, states, labels, id, a, b)
    ensures a <= n < b && Attempts(states[n], labels[n], id)
  {
    var sub, steps := states[a..b + 1], labels[a..b];
    StretchIsTrace(cfg, states, labels, a, b);
    PrefixIsRun(cfg, states, labels, a);
    assert sub[0] == states[a];
    BoundedWaiting(cfg, sub, steps, id, states[a].rows[id].availableAt);
    var i :| 0 <= i < |steps| && Attempts(sub[i], steps[i], id);
    n := a + i;
    SliceAt(states, a, b + 1, i);
    SliceAt(labels, a, b, i);
  }

  lemma SliceAt<T>(s: seq<T>, a: nat, b: nat, i: nat)
    requires a + i < b <= |s|
    ensures s[a..b][i] == s[a + i]
  {
  }

  lemma TurnAdvances(cfg: Config, states: seq<System>, labels: seq<Label>, id: Id, a: nat, b: nat)
    requires IsRun(cfg, states, labels) && a <= b <= |labels| && cfg.batchSize >= 1
             && HasTurn(cfg, states, labels, id, a, b)
    requires forall m | a <= m < b :: !Happens(Restarting, states[m], labels[m], id)
    ensures Advanced(states[b], id, Used(states[a], id))
  {
    var n := TurnAttempts(cfg, states, labels, id, a, b);
    StretchAdvances(cfg, states, labels, id, a, n, b);
  }

  lemma PrefixIsRun(cfg: Config, states: seq<System>, labels: seq<Label>, a: nat)
    requires IsRun(cfg, states, labels) && a <= |labels|
    ensures Reachable(cfg, states[a])
  {
    var states', labels' := states[..a + 1], labels[..a];
    assert IsRun(cfg, states', labels') && states'[|labels'|] == states[a];
  }

  /** From a to b the row is settled or gets its turn. */
  ghost predicate SettledOrTurn(cfg: Config, states: seq<System>, labels: seq<Label>, id: Id, a: nat, b: nat)
    requires |labels| < |states| && cfg.batchSize >= 1
  {
    a <= b <= |labels|
        && ((id in states[a].rows && Settled(states[a].rows[id])) || HasTurn(cfg, states, labels, id, a, b))
  }

  /** At each of the cuts but the last the row is settled or starts a turn that lasts to the next. */
  ghost predicate GivenTurns(cfg: Config, states: seq<System>, labels: seq<Label>, id: Id, cuts: seq<nat>)
    requires |labels| < |states| && cfg.batchSize >= 1 && cuts != []
  {
    |cuts| == 1 || (SettledOrTurn(cfg, states, labels, id, cuts[0], cuts[1])
                    && GivenTurns(cfg, states, labels, id, cuts[1..]))
  }

  lemma {:induction false} CutsGrow(cfg: Config, states: seq<System>, labels: seq<Label>, id: Id, cuts: seq<nat>)
    requires |labels| < |states| && cfg.batchSize >= 1 && cuts != [] && GivenTurns(cfg, states, labels, id, cuts)
    ensures cuts[0] <= cuts[|cuts| - 1]
  {
    if |cuts| > 1 {
      CutsGrow(cfg, states, labels, id, cuts[1..]);
    }
  }

  /** Settled, or no longer in hand with `used` attempts used up. */
  ghost predicate Progress(s: System, id: Id, used: nat)
  {
    id in s.rows && (Settled(s.rows[id]) || Used(s, id) >= used)
  }

  lemma OneTurn(cfg: Config, states: seq<System>, labels: seq<Label>, id: Id, a: nat, b: nat, used: nat)
    requires IsRun(cfg, states, labels) && cfg.batchSize >= 1 && SettledOrTurn(cfg, states, labels, id, a, b)
    requires forall n | a <= n < b :: !Happens(Restarting, states[n], labels[n], id)
    requires Progress(states[a], id, used) && !InHand(states[b], id)
    ensures Progress(states[b], id, used + 1)
  {
    if Settled(states[a].rows[id]) {
      SettledStays(cfg, states, labels, id, a, b);
    } else {
      TurnAdvances(cfg, states, labels, id, a, b);
    }
  }

  /** A row that is settled or due is in no worker's hands. */
  lemma RestingRow(cfg: Config, states: seq<System>, labels: seq<Label>, id: Id, a: nat, b: nat)
    requires IsRun(cfg, states, labels) && cfg.batchSize >= 1 && SettledOrTurn(cfg, states, labels, id, a, b)
    ensures !InHand(states[a], id)
  {
    ReachableInv(cfg, states, labels, a);
    assert RowKept(cfg, states[a], id);
  }

  lemma {:induction false} TurnsAddUp(cfg: Config, states: seq<System>, labels: seq<Label>, id: Id, cuts: seq<nat>,
                                      used: nat)
    requires IsRun(cfg, states, labels) && cfg.batchSize >= 1 && cuts != [] && cuts[|cuts| - 1] <= |labels|
    requires GivenTurns(cfg, states, labels, id, cuts)
    requires forall n | cuts[0] <= n < cuts[|cuts| - 1] :: !Happens(Restarting, states[n], labels[n], id)
    requires !InHand(states[cuts[|cuts| - 1]], id)
    requires cuts[0] <= |labels| && Progress(states[cuts[0]], id, used)
    ensures Progress(states[cuts[|cuts| - 1]], id, used + |cuts| - 1)
    decreases |cuts|
  {
    if |cuts| > 1 {
      var rest := cuts[1..];
      CutsGrow(cfg, states, labels, id, rest);
      if |cuts| > 2 {
        RestingRow(cfg, states, labels, id, cuts[1], cuts[2]);
      }
      OneTurn(cfg, states, labels, id, cuts[0], cuts[1], used);
      TurnsAddUp(cfg, states, labels, id, rest, used + 1);
    }
  }

  /**
   Bounded completion: an epoch that gives a row max(1, max_retries) turns, plus one for
   each attempt a crash or an exception swallowed, settles it: SENT, FAILED, or FAILED
   and then discarded. A turn is floor(ahead / batch_size) + 1 complete passes from a
   moment at which the row is due.
   */
  lemma SettledWithinBudget(cfg: Config, states: seq<System>, labels: seq<Label>, id: Id, lo: nat, cuts: seq<nat>)
    requires IsRun(cfg, states, labels) && cfg.batchSize >= 1 && cuts != [] && GivenTurns(cfg, states, labels, id, cuts)
    requires 1 <= lo <= cuts[0] && lo <= cuts[|cuts| - 1] <= |labels|
    requires IsEpoch(states, labels, id, lo, cuts[|cuts| - 1]) && !InHand(states[cuts[|cuts| - 1]], id)
    requires |cuts| - 1 >= Budget(cfg) + Count(Abandoning, states, labels, id, lo, cuts[|cuts| - 1])
    ensures id in states[cuts[|cuts| - 1]].rows && Settled(states[cuts[|cuts| - 1]].rows[id])
  {
    var hi := cuts[|cuts| - 1];
    CutsGrow(cfg, states, labels, id, cuts);
    RowStaysKnown(cfg, states, labels, id, lo, cuts[0]);
    TurnsAddUp(cfg, states, labels, id, cuts, 0);
    EpochCounters(cfg, states, labels, id, lo, hi);
    ReachableInv(cfg, states, labels, hi);
    assert RowKept(cfg, states[hi], id);
  }
}
