/**
 The outbox as a protocol: any number of replicas run the worker job of
 app/scheduler.py against one table and one advisory lock, while rows are created
 and operators retry or discard failed rows. Each label is one atomic step; the
 choices of the environment (time, crashes, exceptions, provider answers, ties)
 are carried by the label.
 */
module OutboxProtocol {
  import opened Prelude
  import opened OutboxTable
  import opened RetryPolicies

  type Replica = int

  datatype Config = Config(maxRetries: int, baseDelay: nat, batchSize: nat, timeout: int, providerRetries: int)

  /** Where the worker stands inside the try block of the row `batch[next]`. */
  datatype Phase = AtTop | Marked | Answered(ok: bool)

  datatype Worker =
    | Idle                                                 // no job running
    | Locked                                               // lock taken, process_batch entered
    | Swept                                                // stuck rows recovered
    | Draining(batch: seq<Ticket>, next: nat, phase: Phase) // inside the batch loop
    | Closing                                              // in the finally block, lock still held
    | Gone                                                 // the process died

  /**
   Bookkeeping that no step depends on. `sends`, `calls`, `fails` and `abandoned`
   count since the row was created or requeued by an operator; `oks` and `lost`
   count over the row's whole life. An attempt is abandoned when the worker dies or
   raises after mark_processing and before the result is stored; `lost` counts those
   abandoned after a successful send.
   */
  datatype History = History(sends: nat, calls: nat, fails: nat, abandoned: nat, oks: nat, lost: nat)

  /** Bookkeeping too: how many results were stored, as SENT, as FAILED and as PENDING again. */
  datatype Tally = Tally(sent: nat, failed: nat, retried: nat)

  function Plus(a: Tally, b: Tally): Tally
  {
    Tally(a.sent + b.sent, a.failed + b.failed, a.retried + b.retried)
  }

  datatype System = System(now: int, rows: Table, lock: Option<Replica>, workers: map<Replica, Worker>,
                           hist: map<Id, History>, stored: Tally)

  datatype Label =
    | Tick(elapsed: nat)
    | Create(id: Id)
    | OperatorRetry(id: Id)
    | OperatorDiscard(id: Id)
    | Acquire(r: Replica)
    | Recover(r: Replica)
    | Fetch(r: Replica, batch: seq<Ticket>)
    | Begin(r: Replica)
    | Send(r: Replica, script: seq<RetryOutcome>)
    | Record(r: Replica)
    | Raise(r: Replica)
    | Finish(r: Replica)
    | Release(r: Replica)
    | Crash(r: Replica)
    | ServerUnlock(r: Replica)

  function At(s: System, r: Replica): Worker
  {
    if r in s.workers then s.workers[r] else Idle
  }

  predicate InPass(w: Worker)
  {
    w.Locked? || w.Swept? || w.Draining? || w.Closing?
  }

  /** The worker is inside the loop body of `batch[next]`. */
  predicate AtRow(w: Worker)
  {
    w.Draining? && w.next < |w.batch|
  }

  /** The worker is between mark_processing of its current row and storing the result. */
  predicate InFlight(w: Worker)
  {
    AtRow(w) && w.phase != AtTop
  }

  /** The table after the worker stores the answer for its current row. */
  function StoreResult(cfg: Config, rows: Table, now: int, ticket: Ticket, ok: bool): Table
  {
    var attemptsMade := ticket.attemptCount + 1;
    if ok then MarkSent(rows, ticket.id, now)
    else if attemptsMade >= cfg.maxRetries then MarkFailed(rows, ticket.id, now)
    else IncrementRetry(rows, ticket.id, now, BackoffSeconds(cfg.baseDelay, attemptsMade))
  }

  /** Which counter storing the answer adds to. */
  function StoreTally(cfg: Config, ticket: Ticket, ok: bool): Tally
  {
    if ok then Tally(1, 0, 0) else if ticket.attemptCount + 1 >= cfg.maxRetries then Tally(0, 1, 0) else Tally(0, 0, 1)
  }

  function NextRow(w: Worker): Worker
    requires AtRow(w)
  {
    w.(next := w.next + 1, phase := AtTop)
  }

  /** The bookkeeping when worker `w` is interrupted. */
  function Interrupted(hist: map<Id, History>, w: Worker): map<Id, History>
  {
    if InFlight(w) && w.batch[w.next].id in hist then
      var id := w.batch[w.next].id;
      hist[id := hist[id].(abandoned := hist[id].abandoned + 1,
                           lost := hist[id].lost + if w.phase == Answered(true) then 1 else 0)]
    else hist
  }

  function Sent(h: History, script: seq<RetryOutcome>): History
    requires |script| > 0
  {
    h.(sends := h.sends + 1, calls := h.calls + |script|,
       oks := h.oks + if script[|script| - 1].succeeded then 1 else 0)
  }

  ghost predicate Enabled(cfg: Config, s: System, l: Label)
  {
    match l
    case Tick(_) => true
    case Create(id) => id !in s.rows
    case OperatorRetry(_) => true
    case OperatorDiscard(_) => true
    case Acquire(r) => At(s, r).Idle?
    case Recover(r) => At(s, r).Locked?
    case Fetch(r, batch) => At(s, r).Swept? && IsPendingBatch(s.rows, s.now, cfg.batchSize, batch)
    case Begin(r) => AtRow(At(s, r)) && At(s, r).phase.AtTop?
    case Send(r, script) => AtRow(At(s, r)) && At(s, r).phase.Marked? && IsRetryRun(cfg.providerRetries, script)
    case Record(r) => AtRow(At(s, r)) && At(s, r).phase.Answered?
    case Raise(r) => AtRow(At(s, r))
    case Finish(r) => At(s, r).Draining? && !AtRow(At(s, r))
    case Release(r) => At(s, r).Locked? || At(s, r).Swept? || At(s, r).Closing?
    case Crash(r) => !At(s, r).Gone?
    case ServerUnlock(r) => At(s, r).Gone? && s.lock == Some(r)
  }

  ghost function Apply(cfg: Config, s: System, l: Label): System
    requires Enabled(cfg, s, l)
  {
    match l
    case Tick(elapsed) => s.(now := s.now + elapsed)
    case Create(id) => s.(rows := s.rows[id := NewRow(s.now)], hist := s.hist[id := History(0, 0, 0, 0, 0, 0)])
    case OperatorRetry(id) =>
      s.(rows := RetryFailed(s.rows, id, s.now),
         hist := if id in s.rows && s.rows[id].status == FAILED && id in s.hist then
                   s.hist[id := s.hist[id].(sends := 0, calls := 0, fails := 0, abandoned := 0)]
                 else s.hist)
    case OperatorDiscard(id) => s.(rows := DiscardFailed(s.rows, id, s.now))
    case Acquire(r) =>
      if s.lock.None? then s.(lock := Some(r), workers := s.workers[r := Locked]) else s
    case Recover(r) =>
      s.(rows := RecoverStuck(s.rows, s.now, cfg.timeout), workers := s.workers[r := Swept])
    case Fetch(r, batch) => s.(workers := s.workers[r := Draining(batch, 0, AtTop)])
    case Begin(r) =>
      var w := At(s, r);
      s.(rows := MarkProcessing(s.rows, w.batch[w.next].id, s.now), workers := s.workers[r := w.(phase := Marked)])
    case Send(r, script) =>
      var w := At(s, r);
      var id := w.batch[w.next].id;
      s.(hist := if id in s.hist then s.hist[id := Sent(s.hist[id], script)] else s.hist,
         workers := s.workers[r := w.(phase := Answered(script[|script| - 1].succeeded))])
    case Record(r) =>
      var w := At(s, r);
      var id := w.batch[w.next].id;
      s.(rows := StoreResult(cfg, s.rows, s.now, w.batch[w.next], w.phase.ok),
         hist := if id in s.hist && !w.phase.ok then s.hist[id := s.hist[id].(fails := s.hist[id].fails + 1)]
                 else s.hist,
         workers := s.workers[r := NextRow(w)],
         stored := Plus(s.stored, StoreTally(cfg, w.batch[w.next], w.phase.ok)))
    case Raise(r) =>
      s.(hist := Interrupted(s.hist, At(s, r)), workers := s.workers[r := NextRow(At(s, r))])
    case Finish(r) => s.(workers := s.workers[r := Closing])
    case Release(r) =>
      s.(workers := s.workers[r := Idle], lock := if s.lock == Some(r) then None else s.lock)
    case Crash(r) =>
      s.(hist := Interrupted(s.hist, At(s, r)), workers := s.workers[r := Gone])
    case ServerUnlock(r) => s.(lock := None)
  }

  ghost predicate Initial(s: System)
  {
    s.rows == map[] && s.hist == map[] && s.lock.None? && s.workers == map[] && s.stored == Tally(0, 0, 0)
  }

  /** A run from any state: `states` is one longer than `labels`. */
  ghost predicate IsTrace(cfg: Config, states: seq<System>, labels: seq<Label>)
  {
    && |states| == |labels| + 1
    && forall i | 0 <= i < |labels| ::
         Enabled(cfg, states[i], labels[i]) && states[i + 1] == Apply(cfg, states[i], labels[i])
  }

  ghost predicate IsRun(cfg: Config, states: seq<System>, labels: seq<Label>)
  {
    IsTrace(cfg, states, labels) && Initial(states[0])
  }
}
