/**
 The confirm-before-execute lifecycle of app/ai/actions/action_service.py over the
 pending_actions table. An action's id is its position in the table; each service
 call is one atomic step.
 */
module PendingActions {
  import opened Prelude

  datatype Status = PENDING_CONFIRMATION | EXECUTED | CANCELLED | EXPIRED

  datatype Action = Action(userId: int, kind: string, status: Status, createdAt: int, expiresAt: int)

  /** How a confirmation ends; `acted` says whether the action took effect before the executor raised. */
  datatype Outcome =
    | Succeeds              // executed, and EXECUTED stored
    | Refuses               // the executor reports failure
    | Raises(acted: bool)   // the executor raises
    | NotStored             // executed, but storing EXECUTED raised or the process died

  /** One execution: which action, confirmed by whom, selected when, and whether EXECUTED was stored for it. */
  datatype Done = Done(id: int, userId: int, at: int, stored: bool)

  datatype World = World(now: int, table: seq<Action>, done: seq<Done>)

  /** `choice` is the action the repository selects; equal creation times may fall either way. */
  datatype Label =
    | Tick(elapsed: nat)
    | Propose(userId: int, kind: string, timeout: int)
    | Confirm(userId: int, choice: Option<int>, outcome: Outcome)
    | Cancel(userId: int, choice: Option<int>)
    | Expire

  predicate Acted(o: Outcome)
  {
    o.Succeeds? || o.NotStored? || o == Raises(true)
  }

  /** Still confirmable by the user. */
  predicate Candidate(table: seq<Action>, userId: int, now: int, id: int)
  {
    && 0 <= id < |table| && table[id].userId == userId
    && table[id].status == PENDING_CONFIRMATION && table[id].expiresAt > now
  }

  ghost predicate IsLatest(table: seq<Action>, userId: int, now: int, choice: Option<int>)
  {
    match choice
    case None => forall id :: !Candidate(table, userId, now, id)
    case Some(id) =>
      Candidate(table, userId, now, id)
      && forall other | Candidate(table, userId, now, other) :: table[other].createdAt <= table[id].createdAt
  }

  predicate Stale(a: Action, now: int)
  {
    a.status == PENDING_CONFIRMATION && a.expiresAt <= now
  }

  function SetStatus(table: seq<Action>, id: int, status: Status): seq<Action>
  {
    if 0 <= id < |table| then table[id := table[id].(status := status)] else table
  }

  function ExpireAll(table: seq<Action>, now: int): (r: seq<Action>)
    ensures |r| == |table|
    ensures forall i | 0 <= i < |table| :: r[i] == if Stale(table[i], now) then table[i].(status := EXPIRED)
            else table[i]
  {
    if table == [] then []
    else
      var last := table[|table| - 1];
      ExpireAll(table[..|table| - 1], now) + [if Stale(last, now) then last.(status := EXPIRED) else last]
  }

  ghost predicate Enabled(w: World, l: Label)
  {
    match l
    case Confirm(userId, choice, _) => IsLatest(w.table, userId, w.now, choice)
    case Cancel(userId, choice) => IsLatest(w.table, userId, w.now, choice)
    case _ => true
  }

  function Apply(w: World, l: Label): World
  {
    match l
    case Tick(elapsed) => w.(now := w.now + elapsed)
    case Propose(userId, kind, timeout) =>
      w.(table := w.table + [Action(userId, kind, PENDING_CONFIRMATION, w.now, w.now + timeout)])
    case Confirm(userId, choice, outcome) =>
      if choice.None? || !Acted(outcome) then w
      else w.(table := if outcome.Succeeds? then SetStatus(w.table, choice.value, EXECUTED) else w.table,
              done := w.done + [Done(choice.value, userId, w.now, outcome.Succeeds?)])
    case Cancel(userId, choice) =>
      if choice.None? then w else w.(table := SetStatus(w.table, choice.value, CANCELLED))
    case Expire => w.(table := ExpireAll(w.table, w.now))
  }

  /** The labels can happen one after the other from `w`. */
  ghost predicate Possible(w: World, labels: seq<Label>)
    decreases |labels|
  {
    labels == [] || (Enabled(w, labels[0]) && Possible(Apply(w, labels[0]), labels[1..]))
  }

  function After(w: World, labels: seq<Label>): World
    decreases |labels|
  {
    if labels == [] then w else After(Apply(w, labels[0]), labels[1..])
  }

  // ---- final statuses are final ----------------------------------------------------------

  lemma {:induction false} FinalStatusesStay(w: World, labels: seq<Label>, id: nat)
    requires Possible(w, labels) && id < |w.table| && w.table[id].status != PENDING_CONFIRMATION
    ensures id < |After(w, labels).table| && After(w, labels).table[id] == w.table[id]
    decreases |labels|
  {
    if labels != [] {
      FinalStatusesStay(Apply(w, labels[0]), labels[1..], id);
    }
  }

  // ---- executions ---------------------------------------------------------------------------

  function Executions(done: seq<Done>, id: int): nat
  {
    if done == [] then 0 else Executions(done[..|done| - 1], id) + (if done[|done| - 1].id == id then 1 else 0)
  }

  /** The executions of an action after which it stayed confirmable. */
  function Unrecorded(done: seq<Done>, id: int): nat
  {
    if done == [] then 0
    else Unrecorded(done[..|done| - 1], id) + (if done[|done| - 1].id == id && !done[|done| - 1].stored then 1 else 0)
  }

  /** By its owner, and in time. */
  predicate DoneRight(table: seq<Action>, d: Done)
  {
    0 <= d.id < |table| && table[d.id].userId == d.userId && d.at < table[d.id].expiresAt
  }

  /** The executions of action `id`: the unrecorded ones, and one more if it is EXECUTED. */
  predicate CountRight(w: World, id: nat)
    requires id < |w.table|
  {
    Executions(w.done, id) == Unrecorded(w.done, id) + (if w.table[id].status == EXECUTED then 1 else 0)
  }

  ghost predicate ExecutionsRight(w: World)
  {
    && (forall id: nat | id < |w.table| :: CountRight(w, id))
    && (forall k | 0 <= k < |w.done| :: DoneRight(w.table, w.done[k]))
  }

  lemma {:induction false} NoExecutionsYet(done: seq<Done>, id: int)
    requires forall k | 0 <= k < |done| :: done[k].id < id
    ensures Executions(done, id) == Unrecorded(done, id) == 0
  {
    if done != [] {
      NoExecutionsYet(done[..|done| - 1], id);
    }
  }

  lemma DoneAppend(done: seq<Done>, d: Done, id: int)
    ensures Executions(done + [d], id) == Executions(done, id) + (if d.id == id then 1 else 0)
    ensures Unrecorded(done + [d], id) == Unrecorded(done, id) + (if d.id == id && !d.stored then 1 else 0)
  {
    assert (done + [d])[..|done|] == done;
  }

  lemma ConfirmKeepsCount(w: World, l: Label, id: nat)
    requires Enabled(w, l) && l.Confirm? && l.choice.Some? && Acted(l.outcome)
    requires id < |w.table| && CountRight(w, id)
    ensures CountRight(Apply(w, l), id)
  {
    DoneAppend(w.done, Done(l.choice.value, l.userId, w.now, l.outcome.Succeeds?), id);
  }

  lemma ConfirmKeepsDone(w: World, l: Label, k: nat)
    requires Enabled(w, l) && l.Confirm? && l.choice.Some? && Acted(l.outcome)
    requires k < |Apply(w, l).done| && (k < |w.done| ==> DoneRight(w.table, w.done[k]))
    ensures DoneRight(Apply(w, l).table, Apply(w, l).done[k])
  {
  }

  /** A change that executes nothing and keeps owners, deadlines and what is EXECUTED. */
  lemma QuietStepKeepsExecutions(w: World, w': World)
    requires ExecutionsRight(w) && w'.done == w.done && |w.table| <= |w'.table|
    requires forall i | 0 <= i < |w.table| ::
               && w'.table[i].userId == w.table[i].userId && w'.table[i].expiresAt == w.table[i].expiresAt
               && (w'.table[i].status == EXECUTED <==> w.table[i].status == EXECUTED)
    requires forall i | |w.table| <= i < |w'.table| :: w'.table[i].status != EXECUTED
    ensures ExecutionsRight(w')
  {
    forall id: nat | id < |w'.table| ensures CountRight(w', id) {
      if id < |w.table| {
        assert CountRight(w, id);
      } else {
        assert forall k | 0 <= k < |w.done| :: DoneRight(w.table, w.done[k]);
        NoExecutionsYet(w.done, id);
      }
    }
    forall k | 0 <= k < |w'.done| ensures DoneRight(w'.table, w'.done[k]) {
      assert DoneRight(w.table, w.done[k]);
    }
  }

  lemma StepKeepsExecutions(w: World, l: Label)
    requires ExecutionsRight(w) && Enabled(w, l)
    ensures ExecutionsRight(Apply(w, l))
  {
    if l.Confirm? && l.choice.Some? && Acted(l.outcome) {
      forall id: nat | id < |w.table| ensures CountRight(Apply(w, l), id) {
        ConfirmKeepsCount(w, l, id);
      }
      forall k | 0 <= k < |Apply(w, l).done| ensures DoneRight(Apply(w, l).table, Apply(w, l).done[k]) {
        ConfirmKeepsDone(w, l, k);
      }
    } else {
      QuietStepKeepsExecutions(w, Apply(w, l));
    }
  }

  lemma {:induction false} HistoryKeepsExecutions(w: World, labels: seq<Label>)
    requires ExecutionsRight(w) && Possible(w, labels)
    ensures ExecutionsRight(After(w, labels))
    decreases |labels|
  {
    if labels != [] {
      StepKeepsExecutions(w, labels[0]);
      HistoryKeepsExecutions(Apply(w, labels[0]), labels[1..]);
    }
  }

  /** The confirmations of action `id` in a history that acted without EXECUTED being stored. */
  function Interruptions(labels: seq<Label>, id: int): nat
  {
    if labels == [] then 0
    else Interruptions(labels[1..], id)
         + (if labels[0].Confirm? && labels[0].choice == Some(id) && Acted(labels[0].outcome)
            && !labels[0].outcome.Succeeds? then 1 else 0)
  }

  lemma {:induction false} UnrecordedAreInterruptions(w: World, labels: seq<Label>, id: int)
    ensures Unrecorded(After(w, labels).done, id) == Unrecorded(w.done, id) + Interruptions(labels, id)
    decreases |labels|
  {
    if labels != [] {
      var w' := Apply(w, labels[0]);
      UnrecordedAreInterruptions(w', labels[1..], id);
      if w'.done != w.done {
        DoneAppend(w.done, w'.done[|w.done|], id);
      }
    }
  }

  /**
   Over any history, an action is executed once if it ends up EXECUTED, plus once for
   every confirmation that acted without storing that. So it is executed at most once
   in every history without such an interruption, always by its owner and always
   selected before it expired.
   */
  lemma ExactlyOnce(now: int, labels: seq<Label>, id: nat)
    requires Possible(World(now, [], []), labels) && id < |After(World(now, [], []), labels).table|
    ensures var w := After(World(now, [], []), labels);
            && Executions(w.done, id) == Interruptions(labels, id) + (if w.table[id].status == EXECUTED then 1 else 0)
            && forall k | 0 <= k < |w.done| ::
                 var d := w.done[k];
                 0 <= d.id < |w.table| && w.table[d.id].userId == d.userId && d.at < w.table[d.id].expiresAt
  {
    var w := World(now, [], []);
    HistoryKeepsExecutions(w, labels);
    UnrecordedAreInterruptions(w, labels, id);
    assert CountRight(After(w, labels), id);
    forall k | 0 <= k < |After(w, labels).done| ensures DoneRight(After(w, labels).table, After(w, labels).done[k]) {
    }
  }

  /** At most once, exactly if every confirmation that acted stored EXECUTED, or nothing else executed the action. */
  lemma AtMostOnceIff(now: int, labels: seq<Label>, id: nat)
    requires Possible(World(now, [], []), labels) && id < |After(World(now, [], []), labels).table|
    ensures var w := After(World(now, [], []), labels);
            Executions(w.done, id) <= 1 <==>
              Interruptions(labels, id) == 0 || (Interruptions(labels, id) == 1 && w.table[id].status != EXECUTED)
  {
    ExactlyOnce(now, labels, id);
  }

  /** Confirming is possible again after an interruption, and then executes the same action a second time. */
  lemma InterruptedActionRunsAgain(w: World, userId: int, id: int)
    requires IsLatest(w.table, userId, w.now, Some(id))
    ensures var again := Apply(w, Confirm(userId, Some(id), NotStored));
            && Enabled(again, Confirm(userId, Some(id), Succeeds))
            && Executions(Apply(again, Confirm(userId, Some(id), Succeeds)).done, id) == Executions(w.done, id) + 2
  {
    var again := Apply(w, Confirm(userId, Some(id), NotStored));
    DoneAppend(w.done, Done(id, userId, w.now, false), id);
    DoneAppend(again.done, Done(id, userId, w.now, true), id);
  }

  /** For instance the only action there is, confirmed at time 0 and again at once. */
  lemma TwiceAtOnce(userId: int)
    ensures var w := World(0, [Action(userId, "create_contract", PENDING_CONFIRMATION, 0, 60)], []);
            Executions(Apply(Apply(w, Confirm(userId, Some(0), NotStored)), Confirm(userId, Some(0), Succeeds)).done,
                       0) == 2
  {
    var w := World(0, [Action(userId, "create_contract", PENDING_CONFIRMATION, 0, 60)], []);
    assert IsLatest(w.table, userId, w.now, Some(0));
    InterruptedActionRunsAgain(w, userId, 0);
  }

  // ---- when an action can still be executed ---------------------------------------------------

  /** The action is still confirmable by its owner. */
  predicate Confirmable(w: World, id: int)
    requires 0 <= id < |w.table|
  {
    w.table[id].status == PENDING_CONFIRMATION && w.table[id].expiresAt > w.now
  }

  /** An action that is not confirmable never is again, and is not executed again. */
  lemma {:induction false} UnconfirmableStaysPut(w: World, labels: seq<Label>, id: nat)
    requires Possible(w, labels) && id < |w.table| && !Confirmable(w, id)
    ensures id < |After(w, labels).table| && Executions(After(w, labels).done, id) == Executions(w.done, id)
    decreases |labels|
  {
    if labels != [] {
      var w' := Apply(w, labels[0]);
      if w'.done != w.done {
        DoneAppend(w.done, w'.done[|w.done|], id);
      }
      UnconfirmableStaysPut(w', labels[1..], id);
    }
  }

  /** The actions the user can still confirm. */
  function Candidates(w: World, userId: int): set<int>
  {
    set id | 0 <= id < |w.table| && Candidate(w.table, userId, w.now, id)
  }

  /** Some candidate is the newest. */
  lemma {:induction false} NewestExists(w: World, userId: int, ids: set<int>) returns (newest: int)
    requires ids != {} && ids <= Candidates(w, userId)
    ensures newest in ids && Candidate(w.table, userId, w.now, newest)
    ensures forall id | id in ids ::
              Candidate(w.table, userId, w.now, id) && w.table[id].createdAt <= w.table[newest].createdAt
    decreases ids
  {
    SomeMember(ids);
    var id :| id in ids;
    if ids == {id} {
      newest := id;
    } else {
      var rest := NewestExists(w, userId, ids - {id});
      newest := if w.table[id].createdAt >= w.table[rest].createdAt then id else rest;
    }
  }

  lemma CancelRemovesCandidate(w: World, userId: int, newest: int)
    requires Candidate(w.table, userId, w.now, newest)
    ensures Candidates(Apply(w, Cancel(userId, Some(newest))), userId) == Candidates(w, userId) - {newest}
  {
  }

  /** The owner can always get to a confirmable action: by cancelling the newer ones first. */
  lemma {:induction false} ReachAndConfirm(w: World, id: nat) returns (labels: seq<Label>)
    requires id < |w.table| && Confirmable(w, id)
    ensures Possible(w, labels) && Executions(After(w, labels).done, id) == Executions(w.done, id) + 1
    decreases Candidates(w, w.table[id].userId)
  {
    var userId := w.table[id].userId;
    assert id in Candidates(w, userId);
    var newest := NewestExists(w, userId, Candidates(w, userId));
    if w.table[newest].createdAt <= w.table[id].createdAt {
      var confirm := Confirm(userId, Some(id), Succeeds);
      labels := [confirm];
      assert labels[1..] == [];
      assert Possible(Apply(w, confirm), []) && After(Apply(w, confirm), []) == Apply(w, confirm);
      DoneAppend(w.done, Done(id, userId, w.now, true), id);
    } else {
      var cancel := Cancel(userId, Some(newest));
      assert forall other | Candidate(w.table, userId, w.now, other) :: other in Candidates(w, userId);
      CancelRemovesCandidate(w, userId, newest);
      var rest := ReachAndConfirm(Apply(w, cancel), id);
      labels := [cancel] + rest;
      assert labels[1..] == rest;
    }
  }

  /** Some continuation executes the action once more. */
  ghost predicate CanRunAgain(w: World, id: int)
  {
    exists labels :: Possible(w, labels) && Executions(After(w, labels).done, id) > Executions(w.done, id)
  }

  /**
   Whatever happened before, an action can be executed, for the first time or again,
   exactly as long as it still awaits confirmation and has not expired. Newer actions of
   its owner are no obstacle.
   */
  lemma CanRunAgainIff(w: World, id: nat)
    requires id < |w.table|
    ensures CanRunAgain(w, id) <==> w.table[id].status == PENDING_CONFIRMATION && w.table[id].expiresAt > w.now
  {
    if Confirmable(w, id) {
      var labels := ReachAndConfirm(w, id);
    } else {
      forall labels | Possible(w, labels) ensures Executions(After(w, labels).done, id) == Executions(w.done, id) {
        UnconfirmableStaysPut(w, labels, id);
      }
    }
  }

  /**
   So a confirmation interrupted after acting can be followed by a second execution exactly
   until the action expires.
   */
  lemma InterruptedCanRunAgainIff(w: World, userId: int, id: nat, elapsed: nat)
    requires IsLatest(w.table, userId, w.now, Some(id))
    ensures CanRunAgain(Apply(Apply(w, Confirm(userId, Some(id), NotStored)), Tick(elapsed)), id)
            <==> w.now + elapsed < w.table[id].expiresAt
  {
    CanRunAgainIff(Apply(Apply(w, Confirm(userId, Some(id), NotStored)), Tick(elapsed)), id);
  }

  // ---- expiring changes nothing a user can observe ----------------------------------------------

  /** The same world, except that some stale actions are marked EXPIRED in `w'`. */
  ghost predicate SameButExpired(w: World, w': World)
  {
    && w.now == w'.now && w.done == w'.done && |w.table| == |w'.table|
    && forall i | 0 <= i < |w.table| ::
         w'.table[i] == w.table[i] || (Stale(w.table[i], w.now) && w'.table[i] == w.table[i].(status := EXPIRED))
  }

  lemma SameCandidates(w: World, w': World, userId: int, id: int)
    requires SameButExpired(w, w')
    ensures Candidate(w.table, userId, w.now, id) <==> Candidate(w'.table, userId, w'.now, id)
  {
  }

  lemma StepIgnoresExpiry(w: World, w': World, l: Label)
    requires SameButExpired(w, w')
    ensures Enabled(w, l) <==> Enabled(w', l)
    ensures Enabled(w, l) ==> SameButExpired(Apply(w, l), Apply(w', l))
  {
    if l.Confirm? || l.Cancel? {
      forall id ensures Candidate(w.table, l.userId, w.now, id) <==> Candidate(w'.table, l.userId, w'.now, id) {
        SameCandidates(w, w', l.userId, id);
      }
    }
  }

  lemma {:induction false} RunIgnoresExpiry(w: World, w': World, labels: seq<Label>)
    requires SameButExpired(w, w')
    ensures Possible(w, labels) <==> Possible(w', labels)
    ensures Possible(w, labels) ==> SameButExpired(After(w, labels), After(w', labels))
    decreases |labels|
  {
    if labels != [] {
      StepIgnoresExpiry(w, w', labels[0]);
      if Enabled(w, labels[0]) {
        RunIgnoresExpiry(Apply(w, labels[0]), Apply(w', labels[0]), labels[1..]);
      }
    }
  }

  /**
   The cleanup job can run at any point of a history without changing it: exactly the
   same later calls, selecting the same actions, are possible with and without it, and
   the same executions result. The tables differ at most in stale actions marked EXPIRED.
   */
  lemma CleanupIsInvisible(w: World, labels: seq<Label>)
    ensures Possible(w, labels) <==> Possible(w, [Expire] + labels)
    ensures Possible(w, labels) ==> SameButExpired(After(w, labels), After(w, [Expire] + labels))
  {
    assert ([Expire] + labels)[1..] == labels;
    RunIgnoresExpiry(w, Apply(w, Expire), labels);
  }

  // ---- the service -----------------------------------------------------------------------------

  class ActionService {
    var table: seq<Action>
    var now: int
    const timeout: int
    ghost var done: seq<Done>

    ghost function Abstract(): World
      reads this
    {
      World(now, table, done)
    }

    constructor (now: int, timeout: int)
      ensures Abstract() == World(now, [], []) && this.timeout == timeout
    {
      this.now, this.timeout := now, timeout;
      table, done := [], [];
    }

    method Wait(elapsed: nat)
      modifies `now
      ensures Abstract() == Apply(old(Abstract()), Tick(elapsed))
    {
      now := now + elapsed;
    }

    method Create(userId: int, kind: string) returns (id: nat)
      modifies `table
      ensures Abstract() == Apply(old(Abstract()), Propose(userId, kind, timeout))
      ensures id == |old(table)|
    {
      id := |table|;
      table := table + [Action(userId, kind, PENDING_CONFIRMATION, now, now + timeout)];
    }

    /** The newest action the user can still confirm. */
    method GetLatestPending(userId: int) returns (choice: Option<int>)
      ensures IsLatest(table, userId, now, choice)
    {
      choice := None;
      for i := 0 to |table|
        invariant choice.None? ==> forall j | 0 <= j < i :: !Candidate(table, userId, now, j)
        invariant choice.Some? ==>
                    && Candidate(table, userId, now, choice.value)
                    && forall j | 0 <= j < i && Candidate(table, userId, now, j) ::
                         table[j].createdAt <= table[choice.value].createdAt
      {
        if Candidate(table, userId, now, i) && (choice.None? || table[i].createdAt >= table[choice.value].createdAt) {
          choice := Some(i);
        }
      }
    }

    /** `outcome` is how the executor and the final write go; `raised` says that an exception escapes. */
    method ConfirmAndExecute(userId: int, outcome: Outcome)
      returns (success: bool, raised: bool, ghost choice: Option<int>)
      modifies `table, `done
      ensures Enabled(old(Abstract()), Confirm(userId, choice, outcome))
      ensures Abstract() == Apply(old(Abstract()), Confirm(userId, choice, outcome))
      ensures success <==> choice.Some? && outcome.Succeeds?
      ensures raised <==> choice.Some? && outcome.NotStored?
    {
      var pending := GetLatestPending(userId);
      choice := pending;
      if pending.None? {
        return false, false, choice;
      }
      if Acted(outcome) {
        done := done + [Done(pending.value, userId, now, outcome.Succeeds?)];
      }
      if outcome.Raises? {
        return false, false, choice;
      }
      if outcome.NotStored? {
        return false, true, choice;
      }
      if outcome.Succeeds? {
        table := table[pending.value := table[pending.value].(status := EXECUTED)];
      }
      success, raised := outcome.Succeeds?, false;
    }

    method CancelLatest(userId: int) returns (success: bool, ghost choice: Option<int>)
      modifies `table
      ensures Enabled(old(Abstract()), Cancel(userId, choice))
      ensures Abstract() == Apply(old(Abstract()), Cancel(userId, choice))
      ensures success <==> choice.Some?
    {
      var pending := GetLatestPending(userId);
      choice := pending;
      if pending.None? {
        return false, choice;
      }
      table := table[pending.value := table[pending.value].(status := CANCELLED)];
      success := true;
    }

    /** Marks the stale actions one by one. */
    method ExpireStale() returns (count: nat)
      modifies `table
      ensures Abstract() == Apply(old(Abstract()), Expire)
      ensures count == |set i | 0 <= i < |old(table)| && Stale(old(table)[i], now)|
    {
      var expired := set i | 0 <= i < |table| && Stale(table[i], now);
      count := |expired|;
      var todo := expired;
      while todo != {}
        invariant todo <= expired && |table| == |old(table)|
        invariant forall i | 0 <= i < |table| ::
                    table[i] == if i in expired - todo then old(table)[i].(status := EXPIRED) else old(table)[i]
        decreases todo
      {
        SomeMember(todo);
        var i :| i in todo;
        table := table[i := table[i].(status := EXPIRED)];
        todo := todo - {i};
      }
      ghost var swept := ExpireAll(old(table), now);
      assert forall i | 0 <= i < |table| :: table[i] == swept[i];
      assert table == swept;
    }
  }
}
