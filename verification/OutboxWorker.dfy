/**
 NotificationWorker of app/workers/notification_worker.py, over the repository
 object. Every pass it makes is a run of the outbox protocol, with time, new rows and
 operators free to come in between any two of its repository calls.
 */
module OutboxWorker {
  import opened Prelude
  import opened OutboxTable
  import opened OutboxProtocol
  import opened OutboxSafety
  import opened OutboxRepository
  import opened RetryPolicies
  import T = Traces

  /** How the try block of one row ends. */
  datatype Ending =
    | NotMarked                           // mark_processing raises
    | NotAnswered                         // something raises before an answer is in
    | NotStored(script: seq<RetryOutcome>) // storing the answer raises
    | Stored(script: seq<RetryOutcome>)    // no exception

  /** What the surroundings do at one row: before it is claimed, while it is claimed, and to its try block. */
  datatype Fate = Fate(before: seq<Other>, meanwhile: seq<Other>, ending: Ending)

  /** Where a pass is cut short by an exception outside the loop, if anywhere. */
  datatype Stop = Completes | RecoveryRaises | FetchRaises

  /** What the surroundings do in one pass; `others` act between recovery and get_pending. */
  datatype Plan = Plan(stop: Stop, others: seq<Other>, fates: nat -> Fate)

  ghost predicate ValidFate(cfg: Config, fate: Fate)
  {
    fate.ending.NotStored? || fate.ending.Stored? ==> IsRetryRun(cfg.providerRetries, fate.ending.script)
  }

  ghost predicate ValidPlan(cfg: Config, plan: Plan)
  {
    forall k: nat :: ValidFate(cfg, plan.fates(k))
  }

  predicate Delivered(script: seq<RetryOutcome>)
  {
    |script| > 0 && script[|script| - 1].succeeded
  }

  class WorkerResult {
    var recovered: nat
    var processed: nat
    var sent: nat
    var retried: nat
    var failed: nat

    constructor ()
      ensures recovered == processed == sent == retried == failed == 0
    {
      recovered, processed, sent, retried, failed := 0, 0, 0, 0, 0;
    }

    function Counts(): Tally
      reads this
    {
      Tally(sent, failed, retried)
    }
  }

  // ---- runs and what they store ---------------------------------------------------------

  ghost function Step(cfg: Config): (System, Label) -> Option<System>
  {
    (s: System, l: Label) => if Enabled(cfg, s, l) then Some(Apply(cfg, s, l)) else None
  }

  ghost predicate Runs(cfg: Config, s: System, labels: seq<Label>, s': System)
  {
    T.Runs(Step(cfg), s, labels, s')
  }

  /** A run is a trace in the sense of the protocol, so everything proved of traces holds of it. */
  lemma {:induction false} RunIsTrace(cfg: Config, s: System, labels: seq<Label>, s': System)
    returns (states: seq<System>)
    requires Runs(cfg, s, labels, s')
    ensures IsTrace(cfg, states, labels) && states[0] == s && states[|labels|] == s'
    decreases |labels|
  {
    if labels == [] {
      states := [s];
    } else {
      var rest := RunIsTrace(cfg, Apply(cfg, s, labels[0]), labels[1..], s');
      states := [s] + rest;
      forall i | 0 <= i < |labels|
        ensures Enabled(cfg, states[i], labels[i]) && states[i + 1] == Apply(cfg, states[i], labels[i])
      {
        if i > 0 {
          assert states[i] == rest[i - 1] && labels[i] == labels[1..][i - 1] && states[i + 1] == rest[i];
        }
      }
    }
  }

  lemma RunsKeepInv(cfg: Config, s: System, labels: seq<Label>, s': System)
    requires Inv(cfg, s) && Runs(cfg, s, labels, s')
    ensures Inv(cfg, s')
  {
    var states := RunIsTrace(cfg, s, labels, s');
    TraceKeepsInv(cfg, states, labels, |labels|);
  }

  /** The labels run from s to s' and store t on the way. */
  ghost predicate Makes(cfg: Config, s: System, labels: seq<Label>, s': System, t: Tally)
  {
    Runs(cfg, s, labels, s') && s'.stored == Plus(s.stored, t)
  }

  /** The labels run from s to s' and store no result. */
  ghost predicate Moves(cfg: Config, s: System, labels: seq<Label>, s': System)
  {
    Runs(cfg, s, labels, s') && s'.stored == s.stored
  }

  /** What a run stores are steps of it that leave a row SENT, FAILED or PENDING again. */
  lemma MakesCounts(cfg: Config, s: System, labels: seq<Label>, s': System, t: Tally) returns (states: seq<System>)
    requires Inv(cfg, s) && Makes(cfg, s, labels, s', t)
    ensures IsTrace(cfg, states, labels) && states[0] == s && states[|labels|] == s'
    ensures t.sent == CountStored(SENT, states, labels, |labels|)
    ensures t.failed == CountStored(FAILED, states, labels, |labels|)
    ensures t.retried == CountStored(PENDING, states, labels, |labels|)
  {
    states := RunIsTrace(cfg, s, labels, s');
    StoredCounters(cfg, states, labels, |labels|);
  }

  lemma MakesAppend(cfg: Config, s: System, a: seq<Label>, m: System, t: Tally, b: seq<Label>, s': System, u: Tally)
    requires Makes(cfg, s, a, m, t) && Makes(cfg, m, b, s', u)
    ensures Makes(cfg, s, a + b, s', Plus(t, u))
  {
    T.Append(Step(cfg), s, a, m, b, s');
  }

  lemma MovesAppend(cfg: Config, s: System, a: seq<Label>, m: System, b: seq<Label>, s': System)
    requires Moves(cfg, s, a, m) && Moves(cfg, m, b, s')
    ensures Moves(cfg, s, a + b, s')
  {
    T.Append(Step(cfg), s, a, m, b, s');
  }

  lemma MovesSnoc(cfg: Config, s: System, a: seq<Label>, m: System, l: Label)
    requires Moves(cfg, s, a, m) && Enabled(cfg, m, l) && !l.Record?
    ensures Moves(cfg, s, a + [l], Apply(cfg, m, l))
  {
    T.Snoc(Step(cfg), s, a, m, l, Apply(cfg, m, l));
  }

  // ---- interference ---------------------------------------------------------------------

  function OtherLabel(rows: Table, o: Other): Label
  {
    match o
    case Passes(elapsed) => Tick(elapsed)
    case Creates(id) => if id in rows then Tick(0) else Create(id)
    case Retries(id) => OperatorRetry(id)
    case Discards(id) => OperatorDiscard(id)
  }

  function OthersLabels(rows: Table, now: int, others: seq<Other>): seq<Label>
    decreases |others|
  {
    if others == [] then []
    else
      var (rows', now') := OtherDone(rows, now, others[0]);
      [OtherLabel(rows, others[0])] + OthersLabels(rows', now', others[1..])
  }

  lemma OtherMoves(cfg: Config, s: System, o: Other) returns (s': System)
    ensures Moves(cfg, s, [OtherLabel(s.rows, o)], s')
    ensures (s'.rows, s'.now) == OtherDone(s.rows, s.now, o) && s'.workers == s.workers && s'.lock == s.lock
  {
    s' := Apply(cfg, s, OtherLabel(s.rows, o));
    T.One(Step(cfg), s, OtherLabel(s.rows, o), s');
  }

  /** What others do is a run that no worker takes part in. */
  lemma {:induction false} OthersMove(cfg: Config, s: System, others: seq<Other>) returns (s': System)
    ensures Moves(cfg, s, OthersLabels(s.rows, s.now, others), s')
    ensures (s'.rows, s'.now) == OthersDone(s.rows, s.now, others) && s'.workers == s.workers && s'.lock == s.lock
    decreases |others|
  {
    if others == [] {
      s' := s;
    } else {
      var m := OtherMoves(cfg, s, others[0]);
      s' := OthersMove(cfg, m, others[1..]);
      MovesAppend(cfg, s, [OtherLabel(s.rows, others[0])], m, OthersLabels(m.rows, m.now, others[1..]), s');
    }
  }

  lemma MovesOthers(cfg: Config, s: System, a: seq<Label>, m: System, others: seq<Other>) returns (s': System)
    requires Moves(cfg, s, a, m)
    ensures Moves(cfg, s, a + OthersLabels(m.rows, m.now, others), s')
    ensures (s'.rows, s'.now) == OthersDone(m.rows, m.now, others) && s'.workers == m.workers && s'.lock == m.lock
  {
    s' := OthersMove(cfg, m, others);
    MovesAppend(cfg, s, a, m, OthersLabels(m.rows, m.now, others), s');
  }

  // ---- one row ----------------------------------------------------------------------------

  /** The table and the time after one row went through `_process_one`. */
  function RowDone(cfg: Config, rows: Table, now: int, ticket: Ticket, fate: Fate): (Table, int)
  {
    var (before, then') := OthersDone(rows, now, fate.before);
    if fate.ending.NotMarked? then (before, then')
    else
      var (held, later) := OthersDone(MarkProcessing(before, ticket.id, then'), then', fate.meanwhile);
      if fate.ending.Stored? then (StoreResult(cfg, held, later, ticket, Delivered(fate.ending.script)), later)
         else (held, later)
  }

  /** The protocol steps of one row, around what others do. */
  function RowSteps(r: Replica, before: seq<Label>, meanwhile: seq<Label>, ending: Ending): seq<Label>
  {
    match ending
    case NotMarked => before + [Raise(r)]
    case NotAnswered => before + [Begin(r)] + meanwhile + [Raise(r)]
    case NotStored(script) => before + [Begin(r)] + [Send(r, script)] + meanwhile + [Raise(r)]
    case Stored(script) => before + [Begin(r)] + [Send(r, script)] + meanwhile + [Record(r)]
  }

  /** All the steps while one row is handled. */
  function RowLabels(r: Replica, rows: Table, now: int, ticket: Ticket, fate: Fate): seq<Label>
  {
    var (before, then') := OthersDone(rows, now, fate.before);
    RowSteps(r, OthersLabels(rows, now, fate.before),
             OthersLabels(MarkProcessing(before, ticket.id, then'), then', fate.meanwhile), fate.ending)
  }

  /** What one row adds to the counters. */
  function RowTally(cfg: Config, ticket: Ticket, fate: Fate): Tally
  {
    if !fate.ending.Stored? then Tally(0, 0, 0)
    else StoreTally(cfg, ticket, Delivered(fate.ending.script))
  }

  /** Claiming the row. */
  lemma ClaimMoves(cfg: Config, s: System, r: Replica, before: seq<Other>) returns (m: System)
    requires AtRow(At(s, r)) && At(s, r).phase.AtTop?
    ensures Moves(cfg, s, OthersLabels(s.rows, s.now, before) + [Begin(r)], m)
    ensures var (rows, now) := OthersDone(s.rows, s.now, before);
            m.rows == MarkProcessing(rows, At(s, r).batch[At(s, r).next].id, now) && m.now == now
    ensures At(m, r) == At(s, r).(phase := Marked)
  {
    var b := OthersMove(cfg, s, before);
    MovesSnoc(cfg, s, OthersLabels(s.rows, s.now, before), b, Begin(r));
    m := Apply(cfg, b, Begin(r));
  }

  /** Sending a claimed row, and what others do meanwhile. */
  lemma SendMoves(cfg: Config, s: System, a: seq<Label>, m: System, r: Replica, script: seq<RetryOutcome>,
                  meanwhile: seq<Other>) returns (m': System)
    requires Moves(cfg, s, a, m) && IsRetryRun(cfg.providerRetries, script)
    requires AtRow(At(m, r)) && At(m, r).phase.Marked?
    ensures Moves(cfg, s, a + [Send(r, script)] + OthersLabels(m.rows, m.now, meanwhile), m')
    ensures (m'.rows, m'.now) == OthersDone(m.rows, m.now, meanwhile)
    ensures At(m', r) == At(m, r).(phase := Answered(Delivered(script)))
  {
    MovesSnoc(cfg, s, a, m, Send(r, script));
    m' := MovesOthers(cfg, s, a + [Send(r, script)], Apply(cfg, m, Send(r, script)), meanwhile);
  }

  /** The last step of a row whose answer is stored. */
  lemma StoringMakes(cfg: Config, s: System, a: seq<Label>, m: System, r: Replica) returns (s': System)
    requires Moves(cfg, s, a, m) && AtRow(At(m, r)) && At(m, r).phase.Answered?
    ensures var ticket, ok := At(m, r).batch[At(m, r).next], At(m, r).phase.ok;
            Makes(cfg, s, a + [Record(r)], s', StoreTally(cfg, ticket, ok))
                && s'.rows == StoreResult(cfg, m.rows, m.now, ticket, ok)
    ensures s'.now == m.now && At(s', r) == NextRow(At(m, r))
  {
    s' := Apply(cfg, m, Record(r));
    T.Snoc(Step(cfg), s, a, m, Record(r), s');
  }

  /** The last step of a row that raises. */
  lemma RaisingMoves(cfg: Config, s: System, a: seq<Label>, m: System, r: Replica) returns (s': System)
    requires Moves(cfg, s, a, m) && AtRow(At(m, r))
    ensures Moves(cfg, s, a + [Raise(r)], s')
    ensures s'.rows == m.rows && s'.now == m.now && At(s', r) == NextRow(At(m, r))
  {
    MovesSnoc(cfg, s, a, m, Raise(r));
    s' := Apply(cfg, m, Raise(r));
  }

  /** `_process_one` as protocol steps. */
  lemma RowMakes(cfg: Config, s: System, r: Replica, fate: Fate) returns (s': System)
    requires AtRow(At(s, r)) && At(s, r).phase.AtTop? && ValidFate(cfg, fate)
    ensures var ticket := At(s, r).batch[At(s, r).next];
            && Makes(cfg, s, RowLabels(r, s.rows, s.now, ticket, fate), s', RowTally(cfg, ticket, fate))
            && (s'.rows, s'.now) == RowDone(cfg, s.rows, s.now, ticket, fate)
            && At(s', r) == NextRow(At(s, r))
  {
    var ticket, before := At(s, r).batch[At(s, r).next], OthersLabels(s.rows, s.now, fate.before);
    if fate.ending.NotMarked? {
      var m := OthersMove(cfg, s, fate.before);
      s' := RaisingMoves(cfg, s, before, m, r);
    } else {
      var claimed := ClaimMoves(cfg, s, r, fate.before);
      var meanwhile := OthersLabels(claimed.rows, claimed.now, fate.meanwhile);
      assert RowLabels(r, s.rows, s.now, ticket, fate) == RowSteps(r, before, meanwhile, fate.ending);
      if fate.ending.NotAnswered? {
        var m := MovesOthers(cfg, s, before + [Begin(r)], claimed, fate.meanwhile);
        s' := RaisingMoves(cfg, s, before + [Begin(r)] + meanwhile, m, r);
      } else {
        var script := fate.ending.script;
        var m := SendMoves(cfg, s, before + [Begin(r)], claimed, r, script, fate.meanwhile);
        var a := before + [Begin(r)] + [Send(r, script)] + meanwhile;
        if fate.ending.Stored? {
          s' := StoringMakes(cfg, s, a, m, r);
        } else {
          s' := RaisingMoves(cfg, s, a, m, r);
        }
      }
    }
  }

  // ---- a pass -------------------------------------------------------------------------------

  /** The table and the time after the first `n` rows of a batch. */
  function BatchDone(cfg: Config, rows: Table, now: int, batch: seq<Ticket>, fates: nat -> Fate, n: nat): (Table, int)
    requires n <= |batch|
  {
    if n == 0 then (rows, now)
    else
      var (before, then') := BatchDone(cfg, rows, now, batch, fates, n - 1);
      RowDone(cfg, before, then', batch[n - 1], fates(n - 1))
  }

  /** The protocol steps of the first `n` rows of a batch. */
  function BatchLabels(cfg: Config, r: Replica, rows: Table, now: int, batch: seq<Ticket>, fates: nat -> Fate,
                       n: nat): seq<Label>
    requires n <= |batch|
  {
    if n == 0 then []
    else
      var (before, then') := BatchDone(cfg, rows, now, batch, fates, n - 1);
      BatchLabels(cfg, r, rows, now, batch, fates, n - 1) + RowLabels(r, before, then', batch[n - 1], fates(n - 1))
  }

  /** What the first `n` rows of a batch add to the counters. */
  function BatchTally(cfg: Config, batch: seq<Ticket>, fates: nat -> Fate, n: nat): Tally
    requires n <= |batch|
  {
    if n == 0 then Tally(0, 0, 0)
    else Plus(BatchTally(cfg, batch, fates, n - 1), RowTally(cfg, batch[n - 1], fates(n - 1)))
  }

  /** The table and the time when get_pending is called. */
  function Fetched(cfg: Config, rows: Table, now: int, plan: Plan): (Table, int)
  {
    OthersDone(RecoverStuck(rows, now, cfg.timeout), now, plan.others)
  }

  /** The protocol steps up to get_pending. */
  function SweepLabels(cfg: Config, r: Replica, rows: Table, now: int, plan: Plan): seq<Label>
  {
    [Recover(r)] + OthersLabels(RecoverStuck(rows, now, cfg.timeout), now, plan.others)
  }

  /** The protocol steps of one whole pass. */
  function PassLabels(cfg: Config, r: Replica, rows: Table, now: int, plan: Plan, batch: seq<Ticket>): seq<Label>
  {
    match plan.stop
    case RecoveryRaises => []
    case FetchRaises => SweepLabels(cfg, r, rows, now, plan)
    case Completes =>
      var (fetched, then') := Fetched(cfg, rows, now, plan);
      SweepLabels(cfg, r, rows, now, plan) + [Fetch(r, batch)]
      + BatchLabels(cfg, r, fetched, then', batch, plan.fates, |batch|) + [Finish(r)]
  }

  /** The table and the time after one pass. */
  function PassDone(cfg: Config, rows: Table, now: int, plan: Plan, batch: seq<Ticket>): (Table, int)
  {
    match plan.stop
    case RecoveryRaises => (rows, now)
    case FetchRaises => Fetched(cfg, rows, now, plan)
    case Completes =>
      var (fetched, then') := Fetched(cfg, rows, now, plan);
      BatchDone(cfg, fetched, then', batch, plan.fates, |batch|)
  }

  /** What one pass adds to the counters. */
  function PassTally(cfg: Config, plan: Plan, batch: seq<Ticket>): Tally
  {
    if plan.stop.Completes? then BatchTally(cfg, batch, plan.fates, |batch|) else Tally(0, 0, 0)
  }

  /** How many of the first `n` rows ended in an exception. */
  function Raised(fates: nat -> Fate, n: nat): nat
  {
    if n == 0 then 0 else Raised(fates, n - 1) + (if fates(n - 1).ending.Stored? then 0 else 1)
  }

  /** Nobody else touches the table during the first `n` rows. */
  ghost predicate Quiet(fates: nat -> Fate, n: nat)
  {
    forall k: nat | k < n :: OnlyTime(fates(k).before) && OnlyTime(fates(k).meanwhile)
  }

  // ---- tallies and the table -------------------------------------------------------------------

  /** The rows that were not in `status` before and are in it after. */
  function Turned(before: Table, after: Table, status: Status): set<Id>
  {
    set id | id in before && id in after && before[id].status != status && after[id].status == status
  }

  /** The rows that went back to PENDING with one more attempt counted. */
  function Rescheduled(before: Table, after: Table): set<Id>
  {
    set id | id in before && id in after && after[id].status == PENDING
        && after[id].attemptCount == before[id].attemptCount + 1
  }

  lemma TurnedGrows(before: Table, after: Table, id: Id, row: Row, status: Status)
    requires id in before && id in after && before[id].status == after[id].status == PENDING && status != PENDING
    ensures |Turned(before, after[id := row], status)| == |Turned(before, after, status)|
            + (if row.status == status then 1 else 0)
  {
    var grown := Turned(before, after, status) + (if row.status == status then {id} else {});
    assert Turned(before, after[id := row], status) == grown;
  }

  lemma RescheduledGrows(before: Table, after: Table, id: Id, row: Row)
    requires id in before && id in after && after[id] == before[id]
    ensures |Rescheduled(before, after[id := row])| == |Rescheduled(before, after)|
            + (if row.status == PENDING && row.attemptCount == before[id].attemptCount + 1 then 1 else 0)
  {
    var grown := Rescheduled(before, after)
      + (if row.status == PENDING && row.attemptCount == before[id].attemptCount + 1 then {id} else {});
    assert Rescheduled(before, after[id := row]) == grown;
  }

  /** The counters are the numbers of rows turned SENT, turned FAILED and rescheduled. */
  ghost predicate Tallied(before: Table, after: Table, t: Tally)
  {
    && t.sent == |Turned(before, after, SENT)|
    && t.failed == |Turned(before, after, FAILED)|
    && t.retried == |Rescheduled(before, after)|
  }

  /** From `rows` to `done` only row `id` changed, and u says how it was counted. */
  ghost predicate OneTurned(rows: Table, done: Table, id: Id, u: Tally)
  {
    && id in rows && id in done && done == rows[id := done[id]]
    && u.sent == (if done[id].status == SENT then 1 else 0)
    && u.failed == (if done[id].status == FAILED then 1 else 0)
    && u.retried == (if done[id].status == PENDING && done[id].attemptCount == rows[id].attemptCount + 1 then 1 else 0)
  }

  /** When nobody interferes, a row changes itself and nothing else. */
  lemma QuietRow(cfg: Config, rows: Table, now: int, ticket: Ticket, fate: Fate)
    requires OnlyTime(fate.before) && OnlyTime(fate.meanwhile) && ticket.id in rows
    requires rows[ticket.id].attemptCount == ticket.attemptCount && rows[ticket.id].status == PENDING
    ensures OneTurned(rows, RowDone(cfg, rows, now, ticket, fate).0, ticket.id, RowTally(cfg, ticket, fate))
  {
    OnlyTimeKeepsTable(rows, now, fate.before);
    var then' := OthersDone(rows, now, fate.before).1;
    OnlyTimeKeepsTable(MarkProcessing(rows, ticket.id, then'), then', fate.meanwhile);
  }

  /** One more row turned keeps the counters in step with the table. */
  lemma RowTallies(before: Table, rows: Table, done: Table, id: Id, t: Tally, u: Tally)
    requires id in before && id in rows && rows[id] == before[id] && before[id].status == PENDING
    requires Tallied(before, rows, t) && OneTurned(rows, done, id, u)
    ensures Tallied(before, done, Plus(t, u))
  {
    TurnedGrows(before, rows, id, done[id], SENT);
    TurnedGrows(before, rows, id, done[id], FAILED);
    RescheduledGrows(before, rows, id, done[id]);
  }

  lemma NothingTalliedYet(before: Table)
    ensures Tallied(before, before, Tally(0, 0, 0))
  {
    assert Turned(before, before, SENT) == {} && Turned(before, before, FAILED) == {}
           && Rescheduled(before, before) == {};
  }

  // ---- the batch as a run -------------------------------------------------------------------------

  /** Where a pass of replica r stands after `k` rows of its batch. */
  ghost predicate PassAt(cfg: Config, s: System, labels: seq<Label>, m: System, t: Tally, r: Replica,
                         pending: seq<Ticket>, k: nat)
  {
    && k <= |pending| <= cfg.batchSize
    && Makes(cfg, s, labels, m, t) && At(m, r) == Draining(pending, k, AtTop)
  }

  lemma PassRowIsPending(cfg: Config, s: System, labels: seq<Label>, m: System, t: Tally, r: Replica,
                         pending: seq<Ticket>, k: nat)
    requires Inv(cfg, s) && PassAt(cfg, s, labels, m, t, r, pending, k) && k < |pending|
    ensures pending[k].id in m.rows && m.rows[pending[k].id].status == PENDING
    ensures m.rows[pending[k].id].attemptCount == pending[k].attemptCount
    ensures DistinctIds(pending)
  {
    RunsKeepInv(cfg, s, labels, m);
    assert Holder(m) == At(m, r);
  }

  lemma PassGoesOn(cfg: Config, s: System, labels: seq<Label>, m: System, t: Tally, r: Replica, pending: seq<Ticket>,
                   k: nat, fate: Fate)
    returns (m': System)
    requires Inv(cfg, s) && PassAt(cfg, s, labels, m, t, r, pending, k) && k < |pending| && ValidFate(cfg, fate)
    ensures PassAt(cfg, s, labels + RowLabels(r, m.rows, m.now, pending[k], fate), m',
                   Plus(t, RowTally(cfg, pending[k], fate)), r, pending, k + 1)
    ensures (m'.rows, m'.now) == RowDone(cfg, m.rows, m.now, pending[k], fate)
  {
    PassRowIsPending(cfg, s, labels, m, t, r, pending, k);
    m' := RowMakes(cfg, m, r, fate);
    MakesAppend(cfg, s, labels, m, t, RowLabels(r, m.rows, m.now, pending[k], fate), m',
                RowTally(cfg, pending[k], fate));
  }

  /** While nobody interferes: the counters match the table, and the rows to come are as they were fetched. */
  ghost predicate QuietSoFar(fetched: Table, rows: Table, pending: seq<Ticket>, k: nat, t: Tally)
  {
    && Tallied(fetched, rows, t)
    && (forall j | k <= j < |pending| ::
          pending[j].id in fetched && pending[j].id in rows && rows[pending[j].id] == fetched[pending[j].id])
  }

  /** The protocol steps up to the loop over the batch. */
  function EntryLabels(cfg: Config, r: Replica, rows: Table, now: int, plan: Plan, pending: seq<Ticket>): seq<Label>
  {
    SweepLabels(cfg, r, rows, now, plan) + [Fetch(r, pending)]
  }

  /** After `k` rows: the protocol steps since `entry`, and what was counted. */
  ghost predicate PassSoFar(cfg: Config, s: System, entry: seq<Label>, fetched: Table, then': int, m: System,
                            r: Replica,
                            pending: seq<Ticket>, fates: nat -> Fate, k: nat)
  {
    && k <= |pending|
    && PassAt(cfg, s, entry + BatchLabels(cfg, r, fetched, then', pending, fates, k), m,
              BatchTally(cfg, pending, fates, k), r, pending, k)
    && (m.rows, m.now) == BatchDone(cfg, fetched, then', pending, fates, k)
    && (Quiet(fates, k) ==> QuietSoFar(fetched, m.rows, pending, k, BatchTally(cfg, pending, fates, k)))
  }

  lemma SweepMoves(cfg: Config, s: System, r: Replica, plan: Plan) returns (m: System)
    requires At(s, r).Locked?
    ensures Moves(cfg, s, SweepLabels(cfg, r, s.rows, s.now, plan), m)
    ensures (m.rows, m.now) == Fetched(cfg, s.rows, s.now, plan) && At(m, r).Swept?
  {
    T.One(Step(cfg), s, Recover(r), Apply(cfg, s, Recover(r)));
    m := MovesOthers(cfg, s, [Recover(r)], Apply(cfg, s, Recover(r)), plan.others);
  }

  lemma PassStarts(cfg: Config, s: System, r: Replica, plan: Plan, pending: seq<Ticket>) returns (m: System)
    requires Inv(cfg, s) && At(s, r).Locked?
    requires var (fetched, then') := Fetched(cfg, s.rows, s.now, plan);
             IsPendingBatch(fetched, then', cfg.batchSize, pending)
    ensures var (fetched, then') := Fetched(cfg, s.rows, s.now, plan);
            PassSoFar(cfg, s, EntryLabels(cfg, r, s.rows, s.now, plan, pending), fetched, then', m, r, pending,
                      plan.fates, 0)
  {
    var swept := SweepMoves(cfg, s, r, plan);
    var labels := SweepLabels(cfg, r, s.rows, s.now, plan);
    MovesSnoc(cfg, s, labels, swept, Fetch(r, pending));
    m := Apply(cfg, swept, Fetch(r, pending));
    NothingTalliedYet(m.rows);
    assert labels + [Fetch(r, pending)] + BatchLabels(cfg, r, m.rows, m.now, pending, plan.fates, 0)
           == labels + [Fetch(r, pending)];
  }

  lemma QuietGoesOn(fetched: Table, rows: Table, done: Table, pending: seq<Ticket>, k: nat, t: Tally, u: Tally)
    requires QuietSoFar(fetched, rows, pending, k, t) && k < |pending| && DistinctIds(pending)
    requires pending[k].id in rows && rows[pending[k].id].status == PENDING && OneTurned(rows, done, pending[k].id, u)
    ensures QuietSoFar(fetched, done, pending, k + 1, Plus(t, u))
  {
    RowTallies(fetched, rows, done, pending[k].id, t, u);
    forall j | k + 1 <= j < |pending|
      ensures pending[j].id in fetched && pending[j].id in done && done[pending[j].id] == fetched[pending[j].id]
    {
      assert pending[j].id != pending[k].id;
    }
  }

  lemma QuietRowGoesOn(cfg: Config, fetched: Table, rows: Table, now: int, pending: seq<Ticket>, fate: Fate, k: nat,
                       t: Tally, done: Table)
    requires QuietSoFar(fetched, rows, pending, k, t) && k < |pending| && DistinctIds(pending)
    requires OnlyTime(fate.before) && OnlyTime(fate.meanwhile)
    requires pending[k].id in rows && rows[pending[k].id].status == PENDING
             && rows[pending[k].id].attemptCount == pending[k].attemptCount
    requires done == RowDone(cfg, rows, now, pending[k], fate).0
    ensures QuietSoFar(fetched, done, pending, k + 1, Plus(t, RowTally(cfg, pending[k], fate)))
  {
    QuietRow(cfg, rows, now, pending[k], fate);
    QuietGoesOn(fetched, rows, done, pending, k, t, RowTally(cfg, pending[k], fate));
  }

  /** One more row, for the protocol. */
  lemma PassRowSteps(cfg: Config, s: System, entry: seq<Label>, fetched: Table, then': int, m: System, r: Replica,
                     pending: seq<Ticket>, fates: nat -> Fate, k: nat, t: Tally)
    returns (m': System)
    requires Inv(cfg, s) && k < |pending| && ValidFate(cfg, fates(k))
    requires PassAt(cfg, s, entry + BatchLabels(cfg, r, fetched, then', pending, fates, k), m, t, r, pending, k)
    requires (m.rows, m.now) == BatchDone(cfg, fetched, then', pending, fates, k)
    ensures PassAt(cfg, s, entry + BatchLabels(cfg, r, fetched, then', pending, fates, k + 1), m',
                   Plus(t, RowTally(cfg, pending[k], fates(k))), r, pending, k + 1)
    ensures (m'.rows, m'.now) == RowDone(cfg, m.rows, m.now, pending[k], fates(k))
            == BatchDone(cfg, fetched, then', pending, fates, k + 1)
  {
    var labels, row := BatchLabels(cfg, r, fetched, then', pending, fates, k),
        RowLabels(r, m.rows, m.now, pending[k], fates(k));
    m' := PassGoesOn(cfg, s, entry + labels, m, t, r, pending, k, fates(k));
    assert BatchLabels(cfg, r, fetched, then', pending, fates, k + 1) == labels + row;
    assert entry + labels + row == entry + (labels + row);
  }

  /** One more row, for the protocol and for the counters. */
  lemma PassRow(cfg: Config, s: System, entry: seq<Label>, fetched: Table, then': int, m: System, r: Replica,
                pending: seq<Ticket>, fates: nat -> Fate, k: nat)
    returns (m': System)
    requires Inv(cfg, s) && PassSoFar(cfg, s, entry, fetched, then', m, r, pending, fates, k) && k < |pending|
             && ValidFate(cfg, fates(k))
    ensures PassSoFar(cfg, s, entry, fetched, then', m', r, pending, fates, k + 1)
  {
    var t := BatchTally(cfg, pending, fates, k);
    PassRowIsPending(cfg, s, entry + BatchLabels(cfg, r, fetched, then', pending, fates, k), m, t, r, pending, k);
    m' := PassRowSteps(cfg, s, entry, fetched, then', m, r, pending, fates, k, t);
    if Quiet(fates, k + 1) {
      assert Quiet(fates, k);
      QuietRowGoesOn(cfg, fetched, m.rows, m.now, pending, fates(k), k, t, m'.rows);
    }
  }

  /** The whole batch, row by row. */
  lemma {:induction false} BatchMakes(cfg: Config, s: System, entry: seq<Label>, fetched: Table, then': int,
                                      m: System, r: Replica,
                                      pending: seq<Ticket>, fates: nat -> Fate, k: nat)
    returns (m': System)
    requires Inv(cfg, s) && PassSoFar(cfg, s, entry, fetched, then', m, r, pending, fates, 0) && k <= |pending|
    requires forall i: nat :: ValidFate(cfg, fates(i))
    ensures PassSoFar(cfg, s, entry, fetched, then', m', r, pending, fates, k)
  {
    if k == 0 {
      m' := m;
    } else {
      var j := k - 1;
      var b := BatchMakes(cfg, s, entry, fetched, then', m, r, pending, fates, j);
      m' := PassRow(cfg, s, entry, fetched, then', b, r, pending, fates, j);
      assert j + 1 == k;
      assert PassSoFar(cfg, s, entry, fetched, then', m', r, pending, fates, k);
    }
  }

  /** Every row of a batch is counted or raised. */
  lemma {:induction false} BatchTallyAddsUp(cfg: Config, batch: seq<Ticket>, fates: nat -> Fate, n: nat)
    requires n <= |batch|
    ensures var t := BatchTally(cfg, batch, fates, n); t.sent + t.failed + t.retried + Raised(fates, n) == n
  {
    if n > 0 {
      BatchTallyAddsUp(cfg, batch, fates, n - 1);
    }
  }

  /** The finished pass. */
  ghost predicate PassMade(cfg: Config, s: System, s': System, r: Replica, plan: Plan, batch: seq<Ticket>, t: Tally)
  {
    && Makes(cfg, s, PassLabels(cfg, r, s.rows, s.now, plan, batch), s', t) && Inv(cfg, s')
    && (At(s', r).Locked? || At(s', r).Swept? || At(s', r).Closing?)
  }

  lemma PassEnds(cfg: Config, s: System, m: System, r: Replica, plan: Plan, pending: seq<Ticket>) returns (s': System)
    requires plan.stop.Completes? && Inv(cfg, s)
    requires var (fetched, then') := Fetched(cfg, s.rows, s.now, plan);
             PassSoFar(cfg, s, EntryLabels(cfg, r, s.rows, s.now, plan, pending), fetched, then', m, r, pending,
                       plan.fates, |pending|)
    ensures PassMade(cfg, s, s', r, plan, pending, BatchTally(cfg, pending, plan.fates, |pending|))
            && s'.rows == m.rows && s'.now == m.now
  {
    var (fetched, then') := Fetched(cfg, s.rows, s.now, plan);
    var labels := EntryLabels(cfg, r, s.rows, s.now, plan, pending)
        + BatchLabels(cfg, r, fetched, then', pending, plan.fates, |pending|);
    s' := Apply(cfg, m, Finish(r));
    T.Snoc(Step(cfg), s, labels, m, Finish(r), s');
    RunsKeepInv(cfg, s, labels + [Finish(r)], s');
  }

  /** A whole pass over the rows fetched. */
  lemma FullPassMakes(cfg: Config, s: System, r: Replica, plan: Plan, pending: seq<Ticket>) returns (s': System)
    requires Inv(cfg, s) && At(s, r).Locked? && plan.stop.Completes? && ValidPlan(cfg, plan)
    requires var (fetched, then') := Fetched(cfg, s.rows, s.now, plan);
             IsPendingBatch(fetched, then', cfg.batchSize, pending)
    ensures PassMade(cfg, s, s', r, plan, pending, PassTally(cfg, plan, pending))
    ensures (s'.rows, s'.now) == PassDone(cfg, s.rows, s.now, plan, pending)
    ensures Quiet(plan.fates, |pending|) ==>
              Tallied(Fetched(cfg, s.rows, s.now, plan).0, s'.rows, PassTally(cfg, plan, pending))
  {
    var (fetched, then') := Fetched(cfg, s.rows, s.now, plan);
    var entry := EntryLabels(cfg, r, s.rows, s.now, plan, pending);
    var m := PassStarts(cfg, s, r, plan, pending);
    m := BatchMakes(cfg, s, entry, fetched, then', m, r, pending, plan.fates, |pending|);
    s' := PassEnds(cfg, s, m, r, plan, pending);
  }

  lemma StoppedPassMakes(cfg: Config, s: System, r: Replica, plan: Plan) returns (s': System)
    requires Inv(cfg, s) && At(s, r).Locked? && !plan.stop.Completes?
    ensures PassMade(cfg, s, s', r, plan, [], PassTally(cfg, plan, []))
    ensures (s'.rows, s'.now) == PassDone(cfg, s.rows, s.now, plan, [])
  {
    if plan.stop.RecoveryRaises? {
      s' := s;
    } else {
      s' := SweepMoves(cfg, s, r, plan);
      RunsKeepInv(cfg, s, SweepLabels(cfg, r, s.rows, s.now, plan), s');
    }
  }

  /** What a pass does is a run of the protocol, wherever it is cut short. */
  lemma PassMakes(cfg: Config, s: System, r: Replica, plan: Plan, batch: seq<Ticket>) returns (s': System)
    requires Inv(cfg, s) && At(s, r).Locked? && ValidPlan(cfg, plan)
    requires plan.stop.Completes? ==> var (fetched, then') := Fetched(cfg, s.rows, s.now, plan);
             IsPendingBatch(fetched, then', cfg.batchSize, batch)
    requires !plan.stop.Completes? ==> batch == []
    ensures PassMade(cfg, s, s', r, plan, batch, PassTally(cfg, plan, batch))
    ensures (s'.rows, s'.now) == PassDone(cfg, s.rows, s.now, plan, batch)
    ensures plan.stop.Completes? && Quiet(plan.fates, |batch|) ==>
              Tallied(Fetched(cfg, s.rows, s.now, plan).0, s'.rows, PassTally(cfg, plan, batch))
  {
    if plan.stop.Completes? {
      s' := FullPassMakes(cfg, s, r, plan, batch);
    } else {
      s' := StoppedPassMakes(cfg, s, r, plan);
    }
  }

  class NotificationWorker {
    const repository: NotificationOutboxRepository
    const cfg: Config

    constructor (repository: NotificationOutboxRepository, cfg: Config)
      ensures this.repository == repository && this.cfg == cfg
    {
      this.repository, this.cfg := repository, cfg;
    }

    /** One row: claim it, send it, store the answer. `raised` says that an exception escaped. */
    method ProcessOne(notification: Ticket, result: WorkerResult, fate: Fate) returns (raised: bool)
      modifies repository, result
      ensures (repository.table, repository.now)
              == RowDone(cfg, old(repository.table), old(repository.now), notification, fate)
      ensures raised == !fate.ending.Stored?
      ensures result.recovered == old(result.recovered) && result.processed == old(result.processed) + 1
      ensures result.Counts() == Plus(old(result.Counts()), RowTally(cfg, notification, fate))
    {
      result.processed := result.processed + 1;
      repository.Meanwhile(fate.before);
      if fate.ending.NotMarked? {
        return true;
      }
      repository.MarkProcessing(notification.id);
      repository.Meanwhile(fate.meanwhile);
      if fate.ending.NotAnswered? || fate.ending.NotStored? {
        return true;
      }
      if Delivered(fate.ending.script) {
        repository.MarkSent(notification.id);
        result.sent := result.sent + 1;
        return false;
      }
      var attemptsMade := notification.attemptCount + 1;
      if attemptsMade >= cfg.maxRetries {
        repository.MarkFailed(notification.id);
        result.failed := result.failed + 1;
        return false;
      }
      repository.IncrementRetry(notification.id, BackoffSeconds(cfg.baseDelay, attemptsMade));
      result.retried := result.retried + 1;
      raised := false;
    }

    /**
     One pass, seen from system state `s` in which replica `r` just took the lock, with
     others free to act between any two repository calls. What the pass does is a run of
     the protocol with exactly the steps the plan calls for. Its counters are the rows
     recovered, the rows fetched, and the results that run stores as SENT, as FAILED and as
     PENDING again; the rest of the batch raised. If nobody interfered with the rows, they
     are also the numbers of rows that differ in that way from the table as fetched.
     */
    method ProcessBatch(plan: Plan, ghost r: Replica, ghost s: System)
      returns (result: WorkerResult, raised: bool, ghost batch: seq<Ticket>, ghost s': System)
      requires Inv(cfg, s) && At(s, r).Locked? && s.rows == repository.table && s.now == repository.now
      requires ValidPlan(cfg, plan)
      modifies repository
      ensures fresh(result) && raised == !plan.stop.Completes?
      ensures PassMade(cfg, s, s', r, plan, batch, result.Counts())
      ensures repository.table == s'.rows && repository.now == s'.now
      ensures !raised ==>
                && result.recovered == |set id | id in s.rows && Stuck(s.rows[id], s.now, cfg.timeout)|
                && result.processed == |batch| <= cfg.batchSize
                && result.sent + result.failed + result.retried + Raised(plan.fates, |batch|) == |batch|
      ensures !raised && Quiet(plan.fates, |batch|) ==>
                Tallied(Fetched(cfg, s.rows, s.now, plan).0, repository.table, result.Counts())
    {
      var pending;
      result, raised, pending := Pass(plan);
      batch := pending;
      s' := PassMakes(cfg, s, r, plan, pending);
      BatchTallyAddsUp(cfg, pending, plan.fates, |pending|);
    }

    /** What the pass does to the table and to its result. */
    method Pass(plan: Plan) returns (result: WorkerResult, raised: bool, pending: seq<Ticket>)
      modifies repository
      ensures fresh(result) && raised == !plan.stop.Completes?
      ensures (repository.table, repository.now)
              == PassDone(cfg, old(repository.table), old(repository.now), plan, pending)
      ensures result.Counts() == PassTally(cfg, plan, pending)
      ensures raised ==> pending == []
      ensures !raised ==>
                && result.recovered == |set id | id in old(repository.table)
                    && Stuck(old(repository.table)[id], old(repository.now), cfg.timeout)|
                && result.processed == |pending|
                && var (fetched, then') := Fetched(cfg, old(repository.table), old(repository.now), plan);
                   IsPendingBatch(fetched, then', cfg.batchSize, pending)
    {
      result := new WorkerResult();
      pending, raised := [], true;
      if plan.stop.RecoveryRaises? {
        return;
      }
      var recovered := Sweep(plan);
      result.recovered := recovered;
      if plan.stop.FetchRaises? {
        return;
      }
      raised := false;
      pending := FetchAndDrain(result, plan.fates);
    }

    /** get_pending and the loop over its rows. */
    method FetchAndDrain(result: WorkerResult, fates: nat -> Fate) returns (pending: seq<Ticket>)
      modifies repository, result
      ensures IsPendingBatch(old(repository.table), old(repository.now), cfg.batchSize, pending)
      ensures (repository.table, repository.now)
              == BatchDone(cfg, old(repository.table), old(repository.now), pending, fates, |pending|)
      ensures result.processed == old(result.processed) + |pending| && result.recovered == old(result.recovered)
      ensures result.Counts() == Plus(old(result.Counts()), BatchTally(cfg, pending, fates, |pending|))
    {
      pending := repository.GetPending(cfg.batchSize);
      Drain(pending, result, fates);
    }

    /** Recovery, and what others do before get_pending. */
    method Sweep(plan: Plan) returns (recovered: nat)
      modifies repository
      ensures (repository.table, repository.now) == Fetched(cfg, old(repository.table), old(repository.now), plan)
      ensures recovered == |set id | id in old(repository.table)
              && Stuck(old(repository.table)[id], old(repository.now), cfg.timeout)|
    {
      recovered := repository.RecoverStuckProcessing(cfg.timeout);
      repository.Meanwhile(plan.others);
    }

    /**
     The loop over the batch: each row is processed once, in order, and a row that raises
     does not stop the others.
     */
    method Drain(pending: seq<Ticket>, result: WorkerResult, fates: nat -> Fate)
      modifies repository, result
      ensures (repository.table, repository.now)
              == BatchDone(cfg, old(repository.table), old(repository.now), pending, fates, |pending|)
      ensures result.processed == old(result.processed) + |pending| && result.recovered == old(result.recovered)
      ensures result.Counts() == Plus(old(result.Counts()), BatchTally(cfg, pending, fates, |pending|))
    {
      for k := 0 to |pending|
        invariant (repository.table, repository.now)
                  == BatchDone(cfg, old(repository.table), old(repository.now), pending, fates, k)
        invariant result.processed == old(result.processed) + k && result.recovered == old(result.recovered)
        invariant result.Counts() == Plus(old(result.Counts()), BatchTally(cfg, pending, fates, k))
      {
        var _ := ProcessOne(pending[k], result, fates(k));
      }
    }
  }
}
