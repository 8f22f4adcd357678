/**
 The notification_outbox table and what each repository call does to it
 (app/repositories/notification_outbox_repository.py). One repository call is one
 atomic change of the table.
 */
module OutboxTable {
  import opened Prelude

  type Id = int

  datatype Status = PENDING | PROCESSING | SENT | FAILED | DISCARDED

  datatype Row = Row(status: Status, attemptCount: nat, availableAt: int, updatedAt: int, sentAt: Option<int>)

  type Table = map<Id, Row>

  /** A row as read by get_pending: its id and the attempt count seen at that moment. */
  datatype Ticket = Ticket(id: Id, attemptCount: nat)

  function NewRow(now: int): Row
  {
    Row(PENDING, 0, now, now, None)
  }

  predicate Due(row: Row, now: int)
  {
    row.status == PENDING && row.availableAt <= now
  }

  predicate Stuck(row: Row, now: int, timeout: int)
  {
    row.status == PROCESSING && row.updatedAt < now - timeout
  }

  function MarkProcessing(t: Table, id: Id, now: int): Table
  {
    if id in t then t[id := t[id].(status := PROCESSING, updatedAt := now)] else t
  }

  function MarkSent(t: Table, id: Id, now: int): Table
  {
    if id in t then t[id := t[id].(status := SENT, sentAt := Some(now), updatedAt := now)] else t
  }

  function MarkFailed(t: Table, id: Id, now: int): Table
  {
    if id in t then t[id := t[id].(status := FAILED, updatedAt := now)] else t
  }

  function IncrementRetry(t: Table, id: Id, now: int, delay: int): Table
  {
    if id in t then
      t[id := t[id].(status := PENDING, attemptCount := t[id].attemptCount + 1, availableAt := now + delay,
                     updatedAt := now)]
    else t
  }

  function RecoveredRow(row: Row, now: int): Row
  {
    row.(status := PENDING, attemptCount := row.attemptCount + 1, availableAt := now, updatedAt := now)
  }

  function RecoverStuck(t: Table, now: int, timeout: int): (r: Table)
    ensures r.Keys == t.Keys
  {
    map id | id in t :: if Stuck(t[id], now, timeout) then RecoveredRow(t[id], now) else t[id]
  }

  function RetryFailed(t: Table, id: Id, now: int): Table
  {
    if id in t && t[id].status == FAILED then
      t[id := t[id].(status := PENDING, attemptCount := 0, availableAt := now, updatedAt := now)]
    else t
  }

  function DiscardFailed(t: Table, id: Id, now: int): Table
  {
    if id in t && t[id].status == FAILED then t[id := t[id].(status := DISCARDED, updatedAt := now)] else t
  }

  ghost predicate DistinctIds(batch: seq<Ticket>)
  {
    forall i, j | 0 <= i < j < |batch| :: batch[i].id != batch[j].id
  }

  predicate HasId(batch: seq<Ticket>, id: Id)
  {
    exists k | 0 <= k < |batch| :: batch[k].id == id
  }

  /** What get_pending may return: the `limit` oldest due rows; ties of available_at fall either way. */
  ghost predicate IsPendingBatch(t: Table, now: int, limit: nat, batch: seq<Ticket>)
  {
    && |batch| <= limit
    && DistinctIds(batch)
    && (forall k | 0 <= k < |batch| ::
          batch[k].id in t && Due(t[batch[k].id], now) && batch[k].attemptCount == t[batch[k].id].attemptCount)
    && (forall j, k | 0 <= j < k < |batch| :: t[batch[j].id].availableAt <= t[batch[k].id].availableAt)
    && (forall id | id in t && Due(t[id], now) && !HasId(batch, id) ::
          |batch| == limit && forall k | 0 <= k < |batch| :: t[batch[k].id].availableAt <= t[id].availableAt)
  }

  /** What others may do to the table between two calls of a worker. */
  datatype Other =
    | Passes(elapsed: nat)   // time
    | Creates(id: Id)        // a new row, if the id is free
    | Retries(id: Id)        // an operator
    | Discards(id: Id)       // an operator

  function OtherDone(t: Table, now: int, o: Other): (Table, int)
  {
    match o
    case Passes(elapsed) => (t, now + elapsed)
    case Creates(id) => (if id in t then t else t[id := NewRow(now)], now)
    case Retries(id) => (RetryFailed(t, id, now), now)
    case Discards(id) => (DiscardFailed(t, id, now), now)
  }

  function OthersDone(t: Table, now: int, others: seq<Other>): (Table, int)
    decreases |others|
  {
    if others == [] then (t, now)
    else
      var (t', now') := OtherDone(t, now, others[0]);
      OthersDone(t', now', others[1..])
  }

  /** Nothing but time passes. */
  ghost predicate OnlyTime(others: seq<Other>)
  {
    forall i | 0 <= i < |others| :: others[i].Passes?
  }

  lemma {:induction false} OnlyTimeKeepsTable(t: Table, now: int, others: seq<Other>)
    requires OnlyTime(others)
    ensures OthersDone(t, now, others).0 == t
    decreases |others|
  {
    if others != [] {
      OnlyTimeKeepsTable(t, OtherDone(t, now, others[0]).1, others[1..]);
    }
  }

  /** Others never take a row away. */
  lemma {:induction false} OthersKeepRows(t: Table, now: int, others: seq<Other>, id: Id)
    requires id in t
    ensures id in OthersDone(t, now, others).0
    decreases |others|
  {
    if others != [] {
      var (t', now') := OtherDone(t, now, others[0]);
      OthersKeepRows(t', now', others[1..], id);
    }
  }
}
