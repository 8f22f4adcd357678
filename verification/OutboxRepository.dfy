/** The repository object: its methods change the table in place exactly as OutboxTable says. */
module OutboxRepository {
  import opened Prelude
  import T = OutboxTable

  class NotificationOutboxRepository {
    var table: T.Table
    var now: int

    constructor (now: int)
      ensures table == map[] && this.now == now
    {
      table := map[];
      this.now := now;
    }

    method Wait(elapsed: nat)
      modifies `now
      ensures now == old(now) + elapsed
    {
      now := now + elapsed;
    }

    method Create(id: T.Id)
      requires id !in table
      modifies `table
      ensures table == old(table)[id := T.NewRow(now)]
    {
      table := table[id := T.NewRow(now)];
    }

    method MarkProcessing(id: T.Id)
      modifies `table
      ensures table == T.MarkProcessing(old(table), id, now)
    {
      if id in table {
        table := table[id := table[id].(status := T.PROCESSING, updatedAt := now)];
      }
    }

    method MarkSent(id: T.Id)
      modifies `table
      ensures table == T.MarkSent(old(table), id, now)
    {
      if id in table {
        table := table[id := table[id].(status := T.SENT, sentAt := Some(now), updatedAt := now)];
      }
    }

    method MarkFailed(id: T.Id)
      modifies `table
      ensures table == T.MarkFailed(old(table), id, now)
    {
      if id in table {
        table := table[id := table[id].(status := T.FAILED, updatedAt := now)];
      }
    }

    method IncrementRetry(id: T.Id, delay: int)
      modifies `table
      ensures table == T.IncrementRetry(old(table), id, now, delay)
    {
      if id in table {
        var row := table[id];
        row := row.(attemptCount := row.attemptCount + 1);
        row := row.(status := T.PENDING, availableAt := now + delay, updatedAt := now);
        table := table[id := row];
      }
    }

    /** Visits the stuck rows one by one; together they are the map update RecoverStuck. */
    method RecoverStuckProcessing(timeout: int) returns (count: nat)
      modifies `table
      ensures table == T.RecoverStuck(old(table), now, timeout)
      ensures count == |set id | id in old(table) && T.Stuck(old(table)[id], now, timeout)|
    {
      var stuck := set id | id in table && T.Stuck(table[id], now, timeout);
      count := |stuck|;
      var todo := stuck;
      while todo != {}
        invariant todo <= stuck
        invariant table.Keys == old(table).Keys
        invariant forall id | id in table ::
                    table[id] == if id in stuck - todo then T.RecoveredRow(old(table)[id], now) else old(table)[id]
        decreases todo
      {
        SomeMember(todo);
        var id :| id in todo;
        table := table[id := T.RecoveredRow(table[id], now)];
        todo := todo - {id};
      }
      ghost var swept := T.RecoverStuck(old(table), now, timeout);
      assert forall id | id in table :: table[id] == swept[id];
      assert table.Keys == swept.Keys;
    }

    method RetryFailed(id: T.Id) returns (found: Option<T.Row>)
      modifies `table
      ensures table == T.RetryFailed(old(table), id, now)
      ensures found == if id in old(table) && old(table)[id].status == T.FAILED then Some(table[id]) else None
    {
      if id !in table || table[id].status != T.FAILED {
        return None;
      }
      table := table[id := table[id].(status := T.PENDING, attemptCount := 0, availableAt := now, updatedAt := now)];
      found := Some(table[id]);
    }

    method DiscardFailed(id: T.Id) returns (found: Option<T.Row>)
      modifies `table
      ensures table == T.DiscardFailed(old(table), id, now)
      ensures found == if id in old(table) && old(table)[id].status == T.FAILED then Some(table[id]) else None
    {
      if id !in table || table[id].status != T.FAILED {
        return None;
      }
      table := table[id := table[id].(status := T.DISCARDED, updatedAt := now)];
      found := Some(table[id]);
    }

    /** What others do between two calls. */
    method Meanwhile(others: seq<T.Other>)
      modifies `table, `now
      ensures (table, now) == T.OthersDone(old(table), old(now), others)
    {
      for i := 0 to |others|
        invariant T.OthersDone(table, now, others[i..]) == T.OthersDone(old(table), old(now), others)
      {
        assert others[i..][0] == others[i] && others[i..][1..] == others[i + 1..];
        match others[i] {
          case Passes(elapsed) => Wait(elapsed);
          case Creates(id) => if id !in table { Create(id); }
          case Retries(id) => var _ := RetryFailed(id);
          case Discards(id) => var _ := DiscardFailed(id);
        }
      }
    }

    /** The oldest due rows, at most `limit` of them. */
    method GetPending(limit: nat) returns (batch: seq<T.Ticket>)
      ensures T.IsPendingBatch(table, now, limit, batch)
    {
      batch := [];
      var rest := set id | id in table && T.Due(table[id], now);
      while |batch| < limit && rest != {}
        invariant |batch| <= limit && IsPicked(table, now, batch, rest)
        decreases rest
      {
        OldestExists(table, rest);
        var id :| id in rest && IsOldest(table, rest, id);
        PickOldest(table, now, batch, rest, id);
        batch := batch + [T.Ticket(id, table[id].attemptCount)];
        rest := rest - {id};
      }
    }
  }

  /** `batch` holds the oldest due rows in order and `rest` the remaining due rows. */
  ghost predicate IsPicked(table: T.Table, now: int, batch: seq<T.Ticket>, rest: set<T.Id>)
  {
    && T.DistinctIds(batch)
    && (forall id | id in rest :: id in table && T.Due(table[id], now) && !T.HasId(batch, id))
    && (forall id | id in table && T.Due(table[id], now) && id !in rest :: T.HasId(batch, id))
    && (forall k | 0 <= k < |batch| ::
          batch[k].id in table && T.Due(table[batch[k].id], now)
              && batch[k].attemptCount == table[batch[k].id].attemptCount)
    && (forall j, k | 0 <= j < k < |batch| :: table[batch[j].id].availableAt <= table[batch[k].id].availableAt)
    && (forall k, id | 0 <= k < |batch| && id in rest :: table[batch[k].id].availableAt <= table[id].availableAt)
  }

  lemma HasIdAppend(batch: seq<T.Ticket>, ticket: T.Ticket, id: T.Id)
    ensures T.HasId(batch + [ticket], id) <==> T.HasId(batch, id) || ticket.id == id
  {
    var longer := batch + [ticket];
    if T.HasId(batch, id) {
      var k :| 0 <= k < |batch| && batch[k].id == id;
      assert longer[k].id == id;
    }
    assert longer[|batch|] == ticket;
  }

  lemma PickOldest(table: T.Table, now: int, batch: seq<T.Ticket>, rest: set<T.Id>, id: T.Id)
    requires IsPicked(table, now, batch, rest)
    requires IsOldest(table, rest, id)
    ensures IsPicked(table, now, batch + [T.Ticket(id, table[id].attemptCount)], rest - {id})
  {
    forall other ensures T.HasId(batch + [T.Ticket(id, table[id].attemptCount)], other)
        <==> T.HasId(batch, other) || id == other {
      HasIdAppend(batch, T.Ticket(id, table[id].attemptCount), other);
    }
  }

  predicate IsOldest(table: T.Table, ids: set<T.Id>, id: T.Id)
    requires forall other | other in ids :: other in table
  {
    id in ids && forall other | other in ids :: table[id].availableAt <= table[other].availableAt
  }

  lemma {:induction false} OldestExists(table: T.Table, ids: set<T.Id>)
    requires ids != {} && forall id | id in ids :: id in table
    ensures exists id :: id in ids && IsOldest(table, ids, id)
    decreases ids
  {
    SomeMember(ids);
    var id :| id in ids;
    if ids == {id} {
      assert IsOldest(table, ids, id);
    } else {
      OldestExists(table, ids - {id});
      var least :| least in ids - {id} && IsOldest(table, ids - {id}, least);
      assert IsOldest(table, ids, if table[id].availableAt <= table[least].availableAt then id else least);
    }
  }
}
