/**
 The outbox job of app/scheduler.py: take the advisory lock, make one pass, free the
 lock whatever happened.
 */
module OutboxJob {
  import opened Prelude
  import opened OutboxTable
  import opened OutboxProtocol
  import opened OutboxSafety
  import opened OutboxWorker
  import opened SchedulerLock
  import T = Traces

  /** The protocol steps of one job; `startsUp` says that the worker could be built. */
  function JobLabels(cfg: Config, r: Replica, lock: Option<Replica>, startsUp: bool, rows: Table, now: int,
                     plan: Plan, batch: seq<Ticket>): seq<Label>
  {
    if lock.Some? then [Acquire(r)]
    else [Acquire(r)] + (if startsUp then PassLabels(cfg, r, rows, now, plan, batch) else []) + [Release(r)]
  }

  lemma AcquireRuns(cfg: Config, s: System, r: Replica) returns (s': System)
    requires Inv(cfg, s) && At(s, r).Idle?
    ensures Runs(cfg, s, [Acquire(r)], s') && Inv(cfg, s')
    ensures s'.rows == s.rows && s'.now == s.now
    ensures if s.lock.Some? then s' == s else s'.lock == Some(r) && At(s', r).Locked?
  {
    s' := Apply(cfg, s, Acquire(r));
    T.One(Step(cfg), s, Acquire(r), s');
    StepKeepsInv(cfg, s, Acquire(r));
  }

  lemma ReleaseRuns(cfg: Config, s: System, labels: seq<Label>, m: System, r: Replica) returns (s': System)
    requires Runs(cfg, s, labels, m) && Inv(cfg, m) && (At(m, r).Locked? || At(m, r).Swept? || At(m, r).Closing?)
    ensures Runs(cfg, s, labels + [Release(r)], s') && Inv(cfg, s')
    ensures s'.rows == m.rows && s'.now == m.now && s'.lock == None && At(s', r).Idle?
  {
    s' := Apply(cfg, m, Release(r));
    T.Snoc(Step(cfg), s, labels, m, Release(r), s');
    StepKeepsInv(cfg, m, Release(r));
  }

  /**
   One job on the replica that owns `lockService`, started in system state `s` with a
   session of its own. If the lock is taken the job changes nothing; otherwise it makes
   one pass as the plan has it, or none if the worker cannot be set up. Either way its
   steps are a run of the protocol and the lock ends as it began.
   */
  method ProcessNotificationOutbox(lockService: SchedulerLockService, worker: NotificationWorker, startsUp: bool,
                                   plan: Plan, ghost s: System)
    returns (ghost batch: seq<Ticket>, ghost s': System)
    requires lockService.Valid() && !lockService.acquired
             && lockService.db.holder == s.lock != Some(lockService.session)
    requires Inv(worker.cfg, s) && At(s, lockService.session).Idle?
    requires worker.repository.table == s.rows && worker.repository.now == s.now
    requires ValidPlan(worker.cfg, plan)
    modifies lockService`acquired, lockService.db, worker.repository
    ensures Runs(worker.cfg, s, JobLabels(worker.cfg, lockService.session, s.lock, startsUp, s.rows, s.now, plan,
                                          batch), s')
    ensures Inv(worker.cfg, s') && At(s', lockService.session).Idle?
    ensures worker.repository.table == s'.rows && worker.repository.now == s'.now
    ensures lockService.Valid() && !lockService.acquired
    ensures lockService.db.holder == old(lockService.db.holder) == s'.lock
    ensures s.lock.Some? || !startsUp ==> worker.repository.table == old(worker.repository.table)
  {
    ghost var cfg, r := worker.cfg, lockService.session;
    batch := [];
    s' := AcquireRuns(cfg, s, r);
    var taken := lockService.Acquire();
    if taken {
      ghost var entry, pass := s', [];
      if startsUp {
        var result, raised;
        result, raised, batch, s' := worker.ProcessBatch(plan, r, s');
        pass := PassLabels(cfg, r, entry.rows, entry.now, plan, batch);
      }
      T.Append(Step(cfg), s, [Acquire(r)], entry, pass, s');
      s' := ReleaseRuns(cfg, s, [Acquire(r)] + pass, s', r);
    }
    lockService.Release();
  }
}
