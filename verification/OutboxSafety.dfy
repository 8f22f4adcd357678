/** What every reachable state of the outbox protocol satisfies. */
module OutboxSafety {
  import opened Prelude
  import opened OutboxTable
  import opened OutboxProtocol
  import opened RetryPolicies
  import A = Arithmetic

  /** The worker that holds the lock, if it is inside a pass. */
  function Holder(s: System): Worker
  {
    if s.lock.Some? then At(s, s.lock.value) else Idle
  }

  ghost predicate Mutex(s: System)
  {
    forall r | InPass(At(s, r)) :: s.lock == Some(r)
  }

  /** The rows a draining worker still has to do are as it read them; only its current row is in flight. */
  ghost predicate BatchIntact(rows: Table, w: Worker)
  {
    w.Draining? ==>
      && w.next <= |w.batch|
      && (w.next == |w.batch| ==> w.phase.AtTop?)
      && DistinctIds(w.batch)
      && (forall k | 0 <= k < |w.batch| :: w.batch[k].id in rows)
      && (forall k | w.next <= k < |w.batch| ::
            && rows[w.batch[k].id].attemptCount == w.batch[k].attemptCount
            && rows[w.batch[k].id].status == if k == w.next && !w.phase.AtTop? then PROCESSING else PENDING)
  }

  /** How far the current attempt on row `id` has come, if worker `w` is at it. */
  function PhaseOn(w: Worker, id: Id): Phase
  {
    if AtRow(w) && w.batch[w.next].id == id then w.phase else AtTop
  }

  function Budget(cfg: Config): (n: nat)
    ensures n >= 1
  {
    Max(1, cfg.maxRetries)
  }

  /** One row against its history, while the attempt on it stands at `phase`. */
  predicate RowAccounted(cfg: Config, row: Row, h: History, phase: Phase)
  {
    && (row.sentAt.Some? <==> row.status == SENT)
    && (phase != AtTop ==> row.status == PROCESSING)
    && h.oks == h.lost + (if row.status == SENT then 1 else 0) + (if phase == Answered(true) then 1 else 0)
    && h.calls <= h.sends * MaxCalls(cfg.providerRetries)
    && h.fails <= h.sends
    && match row.status
       case PENDING =>
         row.attemptCount == h.fails + h.abandoned && h.sends <= h.fails + h.abandoned && h.fails < Budget(cfg)
       case PROCESSING =>
         && h.fails < Budget(cfg)
         && row.attemptCount == h.fails + h.abandoned - (if phase == AtTop then 1 else 0)
         && h.sends <= h.fails + h.abandoned + (if phase.Answered? then 1 else 0)
         && (phase.Answered? ==> h.fails < h.sends)
       case SENT =>
         row.attemptCount == h.fails + h.abandoned && h.sends <= h.fails + h.abandoned + 1 && h.fails < Budget(cfg)
       case FAILED => Exhausted(cfg, row, h)
       case DISCARDED => Exhausted(cfg, row, h)
  }

  predicate Exhausted(cfg: Config, row: Row, h: History)
  {
    && row.attemptCount == h.fails + h.abandoned - 1
    && h.sends <= h.fails + h.abandoned
    && 1 <= h.fails <= Budget(cfg)
    && (h.abandoned == 0 ==> h.fails == Budget(cfg))
  }

  /** Row `id` of the table against its history. */
  ghost predicate RowKept(cfg: Config, s: System, id: Id)
  {
    id in s.rows && id in s.hist && RowAccounted(cfg, s.rows[id], s.hist[id], PhaseOn(Holder(s), id))
  }

  ghost predicate Accounted(cfg: Config, s: System)
  {
    s.rows.Keys == s.hist.Keys && forall id | id in s.rows :: RowKept(cfg, s, id)
  }

  ghost predicate Inv(cfg: Config, s: System)
  {
    Mutex(s) && BatchIntact(s.rows, Holder(s)) && Accounted(cfg, s)
  }

  lemma StepKeepsMutex(cfg: Config, s: System, l: Label)
    requires Mutex(s) && Enabled(cfg, s, l)
    ensures Mutex(Apply(cfg, s, l))
  {
    var s' := Apply(cfg, s, l);
    forall r | InPass(At(s', r)) ensures s'.lock == Some(r) {
      assert InPass(At(s, r)) || l == Acquire(r);
    }
  }

  lemma StepKeepsBatch(cfg: Config, s: System, l: Label)
    requires Inv(cfg, s) && Enabled(cfg, s, l)
    ensures var s' := Apply(cfg, s, l); BatchIntact(s'.rows, Holder(s'))
  {
  }

  lemma OperatorStepKeepsRow(cfg: Config, s: System, l: Label, id: Id)
    requires Inv(cfg, s) && Enabled(cfg, s, l)
    requires l.Tick? || l.Create? || l.OperatorRetry? || l.OperatorDiscard?
    requires id in Apply(cfg, s, l).rows
    ensures RowKept(cfg, Apply(cfg, s, l), id)
  {
    assert Holder(Apply(cfg, s, l)) == Holder(s);
    assert id in s.rows ==> RowKept(cfg, s, id);
  }

  lemma PassStepKeepsRow(cfg: Config, s: System, l: Label, id: Id)
    requires Inv(cfg, s) && Enabled(cfg, s, l)
    requires l.Acquire? || l.Recover? || l.Fetch? || l.Finish? || l.Release? || l.ServerUnlock?
    requires id in Apply(cfg, s, l).rows
    ensures RowKept(cfg, Apply(cfg, s, l), id)
  {
    assert RowKept(cfg, s, id);
    if Apply(cfg, s, l) != s {
      assert PhaseOn(Holder(s), id) == AtTop && PhaseOn(Holder(Apply(cfg, s, l)), id) == AtTop;
    }
  }

  lemma BeginKeepsRow(cfg: Config, s: System, r: Replica, id: Id)
    requires Inv(cfg, s) && Enabled(cfg, s, Begin(r)) && id in s.rows
    ensures RowKept(cfg, Apply(cfg, s, Begin(r)), id)
  {
    assert RowKept(cfg, s, id) && Holder(s) == At(s, r);
    assert Holder(Apply(cfg, s, Begin(r))) == At(s, r).(phase := Marked);
  }

  lemma SendKeepsRow(cfg: Config, s: System, r: Replica, script: seq<RetryOutcome>, id: Id)
    requires Inv(cfg, s) && Enabled(cfg, s, Send(r, script)) && id in s.rows
    ensures RowKept(cfg, Apply(cfg, s, Send(r, script)), id)
  {
    assert RowKept(cfg, s, id) && Holder(s) == At(s, r);
    assert Holder(Apply(cfg, s, Send(r, script))) == At(s, r).(phase := Answered(script[|script| - 1].succeeded));
    A.Next(MaxCalls(cfg.providerRetries), s.hist[id].sends);
    A.Swaps(MaxCalls(cfg.providerRetries), s.hist[id].sends);
    A.Swaps(MaxCalls(cfg.providerRetries), s.hist[id].sends + 1);
  }

  lemma RecordKeepsRow(cfg: Config, s: System, r: Replica, id: Id)
    requires Inv(cfg, s) && Enabled(cfg, s, Record(r)) && id in s.rows
    ensures RowKept(cfg, Apply(cfg, s, Record(r)), id)
  {
    assert RowKept(cfg, s, id) && Holder(s) == At(s, r);
    assert Holder(Apply(cfg, s, Record(r))) == NextRow(At(s, r));
  }

  /** An exception or a crash, in or out of a row. */
  lemma InterruptionKeepsRow(cfg: Config, s: System, l: Label, id: Id)
    requires Inv(cfg, s) && Enabled(cfg, s, l) && (l.Raise? || l.Crash?) && id in s.rows
    ensures RowKept(cfg, Apply(cfg, s, l), id)
  {
    assert RowKept(cfg, s, id);
    if InPass(At(s, l.r)) {
      assert Holder(s) == At(s, l.r);
    }
    assert Holder(Apply(cfg, s, l)) ==
           if !InPass(At(s, l.r)) && s.lock != Some(l.r) then Holder(s) else if l.Raise? then NextRow(At(s, l.r))
              else Gone;
  }

  lemma StepKeepsAccounts(cfg: Config, s: System, l: Label)
    requires Inv(cfg, s) && Enabled(cfg, s, l)
    ensures Accounted(cfg, Apply(cfg, s, l))
  {
    var s' := Apply(cfg, s, l);
    assert s'.rows.Keys == s'.hist.Keys;
    forall id | id in s'.rows ensures RowKept(cfg, s', id) {
      if l.Tick? || l.Create? || l.OperatorRetry? || l.OperatorDiscard? {
        OperatorStepKeepsRow(cfg, s, l, id);
      } else if l.Begin? {
        BeginKeepsRow(cfg, s, l.r, id);
      } else if l.Send? {
        SendKeepsRow(cfg, s, l.r, l.script, id);
      } else if l.Record? {
        RecordKeepsRow(cfg, s, l.r, id);
      } else if l.Raise? || l.Crash? {
        InterruptionKeepsRow(cfg, s, l, id);
      } else {
        PassStepKeepsRow(cfg, s, l, id);
      }
    }
  }

  lemma StepKeepsInv(cfg: Config, s: System, l: Label)
    requires Inv(cfg, s) && Enabled(cfg, s, l)
    ensures Inv(cfg, Apply(cfg, s, l))
  {
    StepKeepsMutex(cfg, s, l);
    StepKeepsBatch(cfg, s, l);
    StepKeepsAccounts(cfg, s, l);
  }

  lemma {:induction false} TraceKeepsInv(cfg: Config, states: seq<System>, labels: seq<Label>, i: nat)
    requires IsTrace(cfg, states, labels) && Inv(cfg, states[0]) && i <= |labels|
    ensures Inv(cfg, states[i])
  {
    if i > 0 {
      TraceKeepsInv(cfg, states, labels, i - 1);
      StepKeepsInv(cfg, states[i - 1], labels[i - 1]);
    }
  }

  lemma ReachableInv(cfg: Config, states: seq<System>, labels: seq<Label>, i: nat)
    requires IsRun(cfg, states, labels) && i <= |labels|
    ensures Inv(cfg, states[i])
  {
    assert Inv(cfg, states[0]);
    TraceKeepsInv(cfg, states, labels, i);
  }

  /** At most one replica is inside process_batch. */
  lemma OnlyOneReplicaInPass(cfg: Config, states: seq<System>, labels: seq<Label>, i: nat, r: Replica, r': Replica)
    requires IsRun(cfg, states, labels) && i <= |labels|
    requires InPass(At(states[i], r)) && InPass(At(states[i], r'))
    ensures r == r'
  {
    ReachableInv(cfg, states, labels, i);
  }

  /**
   No mark_* checks the status it overwrites, yet each is reached only from the
   status it is meant for, with the attempt count the worker read; and recovery
   never runs while a worker holds rows.
   */
  lemma WritesFireFromIntendedStatus(cfg: Config, states: seq<System>, labels: seq<Label>, i: nat)
    requires IsRun(cfg, states, labels) && i < |labels|
    ensures var s, l := states[i], labels[i];
            && (l.Begin? ==>
                  var ticket := At(s, l.r).batch[At(s, l.r).next];
                  ticket.id in s.rows && s.rows[ticket.id].status == PENDING
                      && s.rows[ticket.id].attemptCount == ticket.attemptCount)
            && (l.Send? || l.Record? ==>
                  var ticket := At(s, l.r).batch[At(s, l.r).next];
                  ticket.id in s.rows && s.rows[ticket.id].status == PROCESSING
                      && s.rows[ticket.id].attemptCount == ticket.attemptCount)
            && (l.Recover? ==> forall r :: !At(s, r).Draining?)
  {
    ReachableInv(cfg, states, labels, i);
  }

  /** Rows a draining worker has not reached yet are still PENDING, exactly as it read them. */
  lemma UnreachedRowsArePending(cfg: Config, states: seq<System>, labels: seq<Label>, i: nat, r: Replica, k: nat)
    requires IsRun(cfg, states, labels) && i <= |labels|
    requires At(states[i], r).Draining? && At(states[i], r).next < k < |At(states[i], r).batch|
    ensures var ticket := At(states[i], r).batch[k];
            && ticket.id in states[i].rows
            && states[i].rows[ticket.id].status == PENDING
            && states[i].rows[ticket.id].attemptCount == ticket.attemptCount
  {
    ReachableInv(cfg, states, labels, i);
  }

  lemma StepKeepsTerminalRow(cfg: Config, s: System, l: Label, id: Id)
    requires Inv(cfg, s) && Enabled(cfg, s, l)
    requires id in s.rows && (s.rows[id].status == SENT || s.rows[id].status == DISCARDED)
    ensures id in Apply(cfg, s, l).rows && Apply(cfg, s, l).rows[id] == s.rows[id]
  {
  }

  /** SENT and DISCARDED rows never change again. */
  lemma {:induction false} TerminalRowsNeverChange(cfg: Config, states: seq<System>, labels: seq<Label>, i: nat,
                                                   j: nat, id: Id)
    requires IsRun(cfg, states, labels) && i <= j <= |labels|
    requires id in states[i].rows && (states[i].rows[id].status == SENT || states[i].rows[id].status == DISCARDED)
    ensures id in states[j].rows && states[j].rows[id] == states[i].rows[id]
    decreases j
  {
    if i < j {
      TerminalRowsNeverChange(cfg, states, labels, i, j - 1, id);
      ReachableInv(cfg, states, labels, j - 1);
      StepKeepsTerminalRow(cfg, states[j - 1], labels[j - 1], id);
    }
  }

  /** What a step can mean for one row. */
  datatype Event = Sending | SendingOk | Failing | Abandoning | Losing | Restarting

  ghost predicate OnRow(w: Worker, id: Id)
  {
    AtRow(w) && w.batch[w.next].id == id
  }

  ghost predicate Happens(e: Event, s: System, l: Label, id: Id)
  {
    match e
    case Sending => l.Send? && OnRow(At(s, l.r), id)
    case SendingOk => l.Send? && OnRow(At(s, l.r), id) && |l.script| > 0 && l.script[|l.script| - 1].succeeded
    case Failing => l.Record? && OnRow(At(s, l.r), id) && At(s, l.r).phase == Answered(false)
    case Abandoning => (l.Raise? || l.Crash?) && OnRow(At(s, l.r), id) && At(s, l.r).phase != AtTop
    case Losing => (l.Raise? || l.Crash?) && OnRow(At(s, l.r), id) && At(s, l.r).phase == Answered(true)
    case Restarting => l == Create(id) || (l == OperatorRetry(id) && id in s.rows && s.rows[id].status == FAILED)
  }

  /** How often `e` happens to row `id` in the steps lo..hi. */
  ghost function Count(e: Event, states: seq<System>, labels: seq<Label>, id: Id, lo: nat, hi: nat): nat
    requires lo <= hi <= |labels| < |states|
    decreases hi
  {
    if lo == hi then 0
    else Count(e, states, labels, id, lo, hi - 1) + (if Happens(e, states[hi - 1], labels[hi - 1], id) then 1 else 0)
  }

  /** The provider calls made for row `id` in the steps lo..hi. */
  ghost function ProviderCalls(states: seq<System>, labels: seq<Label>, id: Id, lo: nat, hi: nat): nat
    requires lo <= hi <= |labels| < |states|
    decreases hi
  {
    if lo == hi then 0
    else ProviderCalls(states, labels, id, lo, hi - 1)
         + (if Happens(Sending, states[hi - 1], labels[hi - 1], id) then |labels[hi - 1].script| else 0)
  }

  function HistoryOf(s: System, id: Id): History
  {
    if id in s.hist then s.hist[id] else History(0, 0, 0, 0, 0, 0)
  }

  /** The lifetime counters count successful sends and the losses among them. */
  lemma StepCountsLife(cfg: Config, s: System, l: Label, id: Id)
    requires Inv(cfg, s) && Enabled(cfg, s, l)
    ensures var h, h' := HistoryOf(s, id), HistoryOf(Apply(cfg, s, l), id);
            && h'.oks == h.oks + (if Happens(SendingOk, s, l, id) then 1 else 0)
            && h'.lost == h.lost + (if Happens(Losing, s, l, id) then 1 else 0)
  {
    if l.Raise? || l.Crash? {
      assert InFlight(At(s, l.r)) ==> At(s, l.r).batch[At(s, l.r).next].id in s.hist;
    }
  }

  /** The other counters count since the row was last created or requeued. */
  lemma StepCountsEpoch(cfg: Config, s: System, l: Label, id: Id)
    requires Inv(cfg, s) && Enabled(cfg, s, l)
    requires !Happens(Restarting, s, l, id)
    ensures var h, h' := HistoryOf(s, id), HistoryOf(Apply(cfg, s, l), id);
            && h'.sends == h.sends + (if Happens(Sending, s, l, id) then 1 else 0)
            && h'.fails == h.fails + (if Happens(Failing, s, l, id) then 1 else 0)
            && h'.abandoned == h.abandoned + (if Happens(Abandoning, s, l, id) then 1 else 0)
            && h'.calls == h.calls + (if Happens(Sending, s, l, id) then |l.script| else 0)
  {
    if l.Raise? || l.Crash? {
      assert InFlight(At(s, l.r)) ==> At(s, l.r).batch[At(s, l.r).next].id in s.hist;
    }
  }

  lemma {:induction false} LifeCounters(cfg: Config, states: seq<System>, labels: seq<Label>, id: Id, n: nat)
    requires IsRun(cfg, states, labels) && n <= |labels|
    ensures HistoryOf(states[n], id).oks == Count(SendingOk, states, labels, id, 0, n)
    ensures HistoryOf(states[n], id).lost == Count(Losing, states, labels, id, 0, n)
  {
    if n > 0 {
      LifeCounters(cfg, states, labels, id, n - 1);
      ReachableInv(cfg, states, labels, n - 1);
      StepCountsLife(cfg, states[n - 1], labels[n - 1], id);
    }
  }

  /**
   Over any run, the successful sends of a row are the ones whose result was lost
   to a crash or an exception, plus one if the row is SENT, plus one if the worker
   is just about to store a success. So a row is delivered at most once more than
   results were lost on it.
   */
  lemma SuccessfulSends(cfg: Config, states: seq<System>, labels: seq<Label>, id: Id, n: nat)
    requires IsRun(cfg, states, labels) && n <= |labels| && id in states[n].rows
    ensures Count(SendingOk, states, labels, id, 0, n) ==
            Count(Losing, states, labels, id, 0, n)
            + (if states[n].rows[id].status == SENT then 1 else 0)
            + (if PhaseOn(Holder(states[n]), id) == Answered(true) then 1 else 0)
    ensures Count(SendingOk, states, labels, id, 0, n) <= Count(Losing, states, labels, id, 0, n) + 1
    ensures states[n].rows[id].sentAt.Some? <==> states[n].rows[id].status == SENT
  {
    LifeCounters(cfg, states, labels, id, n);
    ReachableInv(cfg, states, labels, n);
    assert RowKept(cfg, states[n], id);
  }

  // ---- stored results -----------------------------------------------------------------------

  /** The step stores a result that leaves its row in `status`. */
  ghost predicate StoresAs(status: Status, s: System, l: Label, s': System)
  {
    l.Record? && AtRow(At(s, l.r)) && var id := At(s, l.r).batch[At(s, l.r).next].id;
        id in s'.rows && s'.rows[id].status == status
  }

  /** How many results were stored as `status` in the first n steps. */
  ghost function CountStored(status: Status, states: seq<System>, labels: seq<Label>, n: nat): nat
    requires n <= |labels| < |states|
  {
    if n == 0 then 0
    else CountStored(status, states, labels, n - 1)
         + (if StoresAs(status, states[n - 1], labels[n - 1], states[n]) then 1 else 0)
  }

  lemma StepCountsStored(cfg: Config, s: System, l: Label)
    requires Inv(cfg, s) && Enabled(cfg, s, l)
    ensures var s' := Apply(cfg, s, l);
            && s'.stored.sent == s.stored.sent + (if StoresAs(SENT, s, l, s') then 1 else 0)
            && s'.stored.failed == s.stored.failed + (if StoresAs(FAILED, s, l, s') then 1 else 0)
            && s'.stored.retried == s.stored.retried + (if StoresAs(PENDING, s, l, s') then 1 else 0)
  {
    if l.Record? {
      assert Holder(s) == At(s, l.r);
    }
  }

  /** The counters of stored results count, over any trace, the steps that leave a row SENT, FAILED or PENDING again. */
  lemma {:induction false} StoredCounters(cfg: Config, states: seq<System>, labels: seq<Label>, n: nat)
    requires IsTrace(cfg, states, labels) && Inv(cfg, states[0]) && n <= |labels|
    ensures states[n].stored
            == Plus(states[0].stored,
                    Tally(CountStored(SENT, states, labels, n), CountStored(FAILED, states, labels, n),
                          CountStored(PENDING, states, labels, n)))
  {
    if n > 0 {
      StoredCounters(cfg, states, labels, n - 1);
      TraceKeepsInv(cfg, states, labels, n - 1);
      StepCountsStored(cfg, states[n - 1], labels[n - 1]);
    }
  }

  /** The row was created or requeued by step lo - 1 and not requeued since, up to state hi. */
  ghost predicate IsEpoch(states: seq<System>, labels: seq<Label>, id: Id, lo: nat, hi: nat)
    requires 1 <= lo <= hi <= |labels| < |states|
  {
    && Happens(Restarting, states[lo - 1], labels[lo - 1], id)
    && forall i | lo <= i < hi :: !Happens(Restarting, states[i], labels[i], id)
  }

  lemma RestartResets(cfg: Config, s: System, l: Label, id: Id)
    requires Inv(cfg, s) && Enabled(cfg, s, l) && Happens(Restarting, s, l, id)
    ensures var h := HistoryOf(Apply(cfg, s, l), id); h.sends == h.fails == h.abandoned == h.calls == 0
  {
  }

  lemma {:induction false} EpochCounters(cfg: Config, states: seq<System>, labels: seq<Label>, id: Id, lo: nat, hi: nat)
    requires IsRun(cfg, states, labels) && 1 <= lo <= hi <= |labels|
    requires IsEpoch(states, labels, id, lo, hi)
    ensures var h := HistoryOf(states[hi], id);
            && h.sends == Count(Sending, states, labels, id, lo, hi)
            && h.fails == Count(Failing, states, labels, id, lo, hi)
            && h.abandoned == Count(Abandoning, states, labels, id, lo, hi)
            && h.calls == ProviderCalls(states, labels, id, lo, hi)
    decreases hi
  {
    ReachableInv(cfg, states, labels, hi - 1);
    if lo == hi {
      RestartResets(cfg, states[hi - 1], labels[hi - 1], id);
    } else {
      EpochCounters(cfg, states, labels, id, lo, hi - 1);
      assert !Happens(Restarting, states[hi - 1], labels[hi - 1], id);
      StepCountsEpoch(cfg, states[hi - 1], labels[hi - 1], id);
    }
  }

  /**
   The attempt budget of one epoch. However the run interleaves, a row is sent at
   most max(1, max_retries) times plus its abandoned attempts. With nothing
   abandoned, attempt_count stays below the budget while the row is PENDING and
   stops exactly one below it when the row is FAILED.
   */
  lemma AttemptBudget(cfg: Config, states: seq<System>, labels: seq<Label>, id: Id, lo: nat, hi: nat)
    requires IsRun(cfg, states, labels) && 1 <= lo <= hi <= |labels|
    requires IsEpoch(states, labels, id, lo, hi)
    ensures id in states[hi].rows
    ensures Count(Sending, states, labels, id, lo, hi) <= Budget(cfg) + Count(Abandoning, states, labels, id, lo, hi)
    ensures Count(Abandoning, states, labels, id, lo, hi) == 0 && states[hi].rows[id].status == PENDING ==>
              states[hi].rows[id].attemptCount == Count(Sending, states, labels, id, lo, hi) <= Budget(cfg) - 1
    ensures Count(Abandoning, states, labels, id, lo, hi) == 0 && states[hi].rows[id].status == FAILED ==>
              && states[hi].rows[id].attemptCount == Budget(cfg) - 1
              && Count(Sending, states, labels, id, lo, hi) == Budget(cfg)
    ensures ProviderCalls(states, labels, id, lo, hi)
            <= Count(Sending, states, labels, id, lo, hi) * MaxCalls(cfg.providerRetries)
    ensures Count(Abandoning, states, labels, id, lo, hi) == 0 ==>
              ProviderCalls(states, labels, id, lo, hi) <= Budget(cfg) * MaxCalls(cfg.providerRetries)
  {
    EpochCounters(cfg, states, labels, id, lo, hi);
    RowStaysKnown(cfg, states, labels, id, lo, hi);
    ReachableInv(cfg, states, labels, hi);
    assert RowKept(cfg, states[hi], id);
    if Count(Abandoning, states, labels, id, lo, hi) == 0 {
      A.AtMost(MaxCalls(cfg.providerRetries), Count(Sending, states, labels, id, lo, hi), Budget(cfg));
      A.Swaps(MaxCalls(cfg.providerRetries), Count(Sending, states, labels, id, lo, hi));
      A.Swaps(MaxCalls(cfg.providerRetries), Budget(cfg));
    }
  }

  /**
   What storing a failed send does, told by the run alone: it is attempt number k of
   this epoch, counting the failures before it and the attempts a crash swallowed. The
   last attempt of the budget fails the row; any other puts it off by
   base_delay * 2^(k - 1). With nothing abandoned, k is the number of sends so far.
   */
  lemma FailedSendIsRescheduled(cfg: Config, states: seq<System>, labels: seq<Label>, id: Id, lo: nat, i: nat)
    requires IsRun(cfg, states, labels) && 1 <= lo <= i < |labels|
    requires IsEpoch(states, labels, id, lo, i) && Happens(Failing, states[i], labels[i], id)
    ensures id in states[i + 1].rows
    ensures var k := Count(Failing, states, labels, id, lo, i) + Count(Abandoning, states, labels, id, lo, i) + 1;
            var row := states[i + 1].rows[id];
            && (Count(Abandoning, states, labels, id, lo, i) == 0 ==> k == Count(Sending, states, labels, id, lo, i))
            && (k >= cfg.maxRetries ==> row.status == FAILED && row.attemptCount == k - 1)
            && (k < cfg.maxRetries ==>
                  row.status == PENDING && row.attemptCount == k
                      && row.availableAt == states[i].now + cfg.baseDelay * Pow2(k - 1))
  {
    EpochCounters(cfg, states, labels, id, lo, i);
    ReachableInv(cfg, states, labels, i);
    var s := states[i];
    assert Holder(s) == At(s, labels[i].r) && OnRow(Holder(s), id);
    assert RowKept(cfg, s, id);
  }

  // ---- backoff ---------------------------------------------------------------------------

  /** The rows a draining worker has not finished were due when it read them, and stay so. */
  ghost predicate BatchDue(s: System)
  {
    var w := Holder(s);
    w.Draining? ==>
          forall k | w.next <= k < |w.batch| :: w.batch[k].id in s.rows && s.rows[w.batch[k].id].availableAt <= s.now
  }

  lemma StepKeepsBatchDue(cfg: Config, s: System, l: Label)
    requires Inv(cfg, s) && BatchDue(s) && Enabled(cfg, s, l)
    ensures BatchDue(Apply(cfg, s, l))
  {
  }

  lemma {:induction false} ReachableBatchDue(cfg: Config, states: seq<System>, labels: seq<Label>, i: nat)
    requires IsRun(cfg, states, labels) && i <= |labels|
    ensures BatchDue(states[i])
  {
    if i > 0 {
      ReachableBatchDue(cfg, states, labels, i - 1);
      ReachableInv(cfg, states, labels, i - 1);
      StepKeepsBatchDue(cfg, states[i - 1], labels[i - 1]);
    }
  }

  /** The step takes row `id` up: mark_processing on it. */
  ghost predicate Attempts(s: System, l: Label, id: Id)
  {
    l.Begin? && OnRow(At(s, l.r), id)
  }

  lemma StepKeepsPendingRow(cfg: Config, s: System, l: Label, id: Id)
    requires Inv(cfg, s) && Enabled(cfg, s, l) && !Attempts(s, l, id)
    requires id in s.rows && s.rows[id].status == PENDING
    ensures id in Apply(cfg, s, l).rows && Apply(cfg, s, l).rows[id] == s.rows[id]
  {
  }

  /** A PENDING row stays as it is until it is taken up. */
  lemma {:induction false} PendingRowStays(cfg: Config, states: seq<System>, labels: seq<Label>, id: Id, i: nat, j: nat)
    requires IsRun(cfg, states, labels) && i <= j <= |labels|
    requires id in states[i].rows && states[i].rows[id].status == PENDING
    requires forall n | i <= n < j :: !Attempts(states[n], labels[n], id)
    ensures id in states[j].rows && states[j].rows[id] == states[i].rows[id]
    decreases j
  {
    if i < j {
      PendingRowStays(cfg, states, labels, id, i, j - 1);
      ReachableInv(cfg, states, labels, j - 1);
      StepKeepsPendingRow(cfg, states[j - 1], labels[j - 1], id);
    }
  }

  /**
   The backoff is waited out: after failed attempt number k of an epoch, the next time
   the row is taken up comes at least base_delay * 2^(k - 1) later, whoever takes it up.
   */
  lemma RetryWaitsOutBackoff(cfg: Config, states: seq<System>, labels: seq<Label>, id: Id, lo: nat, i: nat, j: nat)
    requires IsRun(cfg, states, labels) && 1 <= lo <= i < j < |labels|
    requires IsEpoch(states, labels, id, lo, i) && Happens(Failing, states[i], labels[i], id)
    requires Attempts(states[j], labels[j], id) && forall n | i < n < j :: !Attempts(states[n], labels[n], id)
    ensures var k := Count(Failing, states, labels, id, lo, i) + Count(Abandoning, states, labels, id, lo, i) + 1;
            k < cfg.maxRetries ==> states[j].now >= states[i].now + cfg.baseDelay * Pow2(k - 1)
  {
    FailedSendIsRescheduled(cfg, states, labels, id, lo, i);
    if states[i + 1].rows[id].status == PENDING {
      PendingRowStays(cfg, states, labels, id, i + 1, j);
      ReachableInv(cfg, states, labels, j);
      ReachableBatchDue(cfg, states, labels, j);
      assert Holder(states[j]) == At(states[j], labels[j].r);
    }
  }

  /** Rows are never deleted. */
  lemma {:induction false} RowStaysKnown(cfg: Config, states: seq<System>, labels: seq<Label>, id: Id, lo: nat, hi: nat)
    requires IsTrace(cfg, states, labels) && 1 <= lo <= hi <= |labels|
    requires Happens(Restarting, states[lo - 1], labels[lo - 1], id)
    ensures id in states[hi].rows
    decreases hi
  {
    if lo < hi {
      RowStaysKnown(cfg, states, labels, id, lo, hi - 1);
    }
  }
}
