/**
 The daily reminder job in direct mode (app/scheduler.py:54-204): any number of
 replicas start it, one advisory lock serialises the runs, and midnight may pass at
 any point of a run.
 */
module DailyReminders {
  import opened Prelude
  import opened Ledger
  import T = Traces

  type Replica = int

  /** The calendar day of a moment. */
  datatype Calendar = Calendar(day: int -> int)

  ghost predicate GoodCalendar(cal: Calendar)
  {
    forall t, t' | t <= t' :: cal.day(t) <= cal.day(t')
  }

  datatype Log = Log(contractId: int, day: int)

  /** A contract found due, and the day on which the reminder log was consulted for it. */
  datatype Pick = Pick(contractId: int, day: int)

  /** A contract as listed for the run, with its start date if it has one. */
  datatype Candidate = Candidate(contract: Contract, startDay: Option<int>)

  ghost predicate DistinctCandidates(candidates: seq<Candidate>)
  {
    forall i, j | 0 <= i < j < |candidates| :: candidates[i].contract.id != candidates[j].contract.id
  }

  datatype Job =
    | Idle
    | Locked
    | Selecting(todo: seq<Candidate>, picked: seq<Pick>)
    | Sending(picked: seq<Pick>, next: nat)
    | Closing
    | Gone

  /** A reminder that reached its recipient, and whether its log was written. */
  datatype Delivery = Delivery(contractId: int, day: int, logged: bool)

  /** `delivered` is bookkeeping that no step depends on. */
  datatype World = World(now: int, logs: seq<Log>, lock: Option<Replica>, jobs: map<Replica, Job>,
                         delivered: seq<Delivery>)

  datatype Label =
    | Tick(elapsed: nat)
    | Acquire(r: Replica)
    | ListContracts(r: Replica, candidates: seq<Candidate>)
    | Check(r: Replica, payments: seq<Payment>) // the payments table at that moment
    | Selected(r: Replica)
    | Execute(r: Replica, delivered: bool, logged: bool)
    | Finish(r: Replica)
    | Release(r: Replica)
    | Crash(r: Replica)
    | ServerUnlock(r: Replica)

  function At(w: World, r: Replica): Job
  {
    if r in w.jobs then w.jobs[r] else Idle
  }

  predicate InRun(j: Job)
  {
    !j.Idle? && !j.Gone?
  }

  predicate HasSentOn(logs: seq<Log>, contractId: int, day: int)
  {
    Log(contractId, day) in logs
  }

  /** has_payment_for_date: of whatever status. */
  predicate HasPaymentOn(payments: seq<Payment>, contractId: int, day: int)
  {
    exists k | 0 <= k < |payments| :: payments[k].contractId == contractId && payments[k].date == day
  }

  /** should_send_reminder. */
  predicate ShouldSend(c: Candidate, payments: seq<Payment>, logs: seq<Log>, day: int)
  {
    if c.contract.status != ACTIVE then false
    else if c.startDay.Some? && c.startDay.value > day then false
    else if Remaining(payments, c.contract.totalAmount, c.contract.id) == 0 then false
    else if HasPaymentOn(payments, c.contract.id, day) then false
    else !HasSentOn(logs, c.contract.id, day)
  }

  /**
   The policy in the ledger's terms: due are the active, started contracts that have been
   paid less than their total, with no payment at all dated that day and no reminder logged.
   */
  lemma DueIff(c: Candidate, payments: seq<Payment>, logs: seq<Log>, day: int)
    ensures ShouldSend(c, payments, logs, day) <==>
              && c.contract.status == ACTIVE && (c.startDay.Some? ==> c.startDay.value <= day)
              && TotalPaid(payments, c.contract.id) < c.contract.totalAmount
              && (forall p | p in payments && p.contractId == c.contract.id :: p.date != day)
              && (forall log | log in logs && log.contractId == c.contract.id :: log.day != day)
  {
    if p :| p in payments && p.contractId == c.contract.id && p.date == day {
      var k :| 0 <= k < |payments| && payments[k] == p;
    }
    if log :| log in logs && log.contractId == c.contract.id && log.day == day {
      assert log == Log(c.contract.id, day);
    }
  }

  ghost predicate Enabled(w: World, l: Label)
  {
    match l
    case Tick(_) => true
    case Acquire(r) => At(w, r).Idle?
    case ListContracts(r, candidates) => At(w, r).Locked? && DistinctCandidates(candidates)
    case Check(r, _) => At(w, r).Selecting? && At(w, r).todo != []
    case Selected(r) => At(w, r).Selecting? && At(w, r).todo == []
    case Execute(r, delivered, logged) =>
      At(w, r).Sending? && At(w, r).next < |At(w, r).picked| && (logged ==> delivered)
    case Finish(r) => InRun(At(w, r))
    case Release(r) => At(w, r).Closing?
    case Crash(r) => !At(w, r).Gone?
    case ServerUnlock(r) => At(w, r).Gone? && w.lock == Some(r)
  }

  /** What is picked once candidate `c` was checked. */
  function Checked(picked: seq<Pick>, c: Candidate, payments: seq<Payment>, logs: seq<Log>, day: int): seq<Pick>
  {
    if ShouldSend(c, payments, logs, day) then picked + [Pick(c.contract.id, day)] else picked
  }

  ghost function Apply(cal: Calendar, w: World, l: Label): World
    requires Enabled(w, l)
  {
    match l
    case Tick(elapsed) => w.(now := w.now + elapsed)
    case Acquire(r) => if w.lock.None? then w.(lock := Some(r), jobs := w.jobs[r := Locked]) else w
    case ListContracts(r, candidates) => w.(jobs := w.jobs[r := Selecting(candidates, [])])
    case Check(r, payments) =>
      var j := At(w, r);
      w.(jobs := w.jobs[r := Selecting(j.todo[1..], Checked(j.picked, j.todo[0], payments, w.logs, cal.day(w.now)))])
    case Selected(r) => w.(jobs := w.jobs[r := Sending(At(w, r).picked, 0)])
    case Execute(r, delivered, logged) =>
      var j, today := At(w, r), cal.day(w.now);
      var id := j.picked[j.next].contractId;
      w.(logs := if logged then w.logs + [Log(id, today)] else w.logs,
         delivered := if delivered then w.delivered + [Delivery(id, today, logged)] else w.delivered,
         jobs := w.jobs[r := j.(next := j.next + 1)])
    case Finish(r) => w.(jobs := w.jobs[r := Closing])
    case Release(r) => w.(jobs := w.jobs[r := Idle], lock := if w.lock == Some(r) then None else w.lock)
    case Crash(r) => w.(jobs := w.jobs[r := Gone])
    case ServerUnlock(r) => w.(lock := None)
  }

  // ---- one reminder per contract and day ----------------------------------------------------

  ghost predicate OncePerDay(logs: seq<Log>)
  {
    forall i, j | 0 <= i < j < |logs| :: logs[i] != logs[j]
  }

  ghost predicate Mutex(w: World)
  {
    forall r | InRun(At(w, r)) :: w.lock == Some(r)
  }

  function Holder(w: World): Job
  {
    if w.lock.Some? then At(w, w.lock.value) else Idle
  }

  /** Picks not yet executed: distinct contracts, none logged on or after the day it was checked. */
  ghost predicate PicksOpen(cal: Calendar, w: World, picked: seq<Pick>, from: nat)
  {
    && (forall i, j | 0 <= i < j < |picked| :: picked[i].contractId != picked[j].contractId)
    && (forall k | from <= k < |picked| :: picked[k].day <= cal.day(w.now))
    && (forall k, log | from <= k < |picked| && log in w.logs && log.contractId == picked[k].contractId ::
          log.day < picked[k].day)
  }

  ghost predicate JobInv(cal: Calendar, w: World, j: Job)
  {
    match j
    case Selecting(todo, picked) =>
      && DistinctCandidates(todo) && PicksOpen(cal, w, picked, 0)
      && (forall i, k | 0 <= i < |todo| && 0 <= k < |picked| :: todo[i].contract.id != picked[k].contractId)
    case Sending(picked, next) => next <= |picked| && PicksOpen(cal, w, picked, next)
    case _ => true
  }

  ghost predicate Inv(cal: Calendar, w: World)
  {
    && Mutex(w) && OncePerDay(w.logs) && JobInv(cal, w, Holder(w))
    && (forall log | log in w.logs :: log.day <= cal.day(w.now))
  }

  lemma StepKeepsMutex(cal: Calendar, w: World, l: Label)
    requires Mutex(w) && Enabled(w, l)
    ensures Mutex(Apply(cal, w, l))
  {
    var w' := Apply(cal, w, l);
    forall r | InRun(At(w', r)) ensures w'.lock == Some(r) {
      assert InRun(At(w, r)) || l == Acquire(r);
    }
  }

  lemma CheckKeepsInv(cal: Calendar, w: World, r: Replica, payments: seq<Payment>)
    requires GoodCalendar(cal) && Inv(cal, w) && Enabled(w, Check(r, payments))
    ensures Inv(cal, Apply(cal, w, Check(r, payments)))
  {
    var w', j := Apply(cal, w, Check(r, payments)), At(w, r);
    StepKeepsMutex(cal, w, Check(r, payments));
    assert Holder(w) == j && Holder(w') == At(w', r);
    var id, today := j.todo[0].contract.id, cal.day(w.now);
    if ShouldSend(j.todo[0], payments, w.logs, today) {
      forall log | log in w.logs && log.contractId == id ensures log.day < today {
        assert log == Log(id, log.day);
      }
    }
  }

  lemma ExecuteKeepsInv(cal: Calendar, w: World, r: Replica, delivered: bool, logged: bool)
    requires GoodCalendar(cal) && Inv(cal, w) && Enabled(w, Execute(r, delivered, logged))
    ensures Inv(cal, Apply(cal, w, Execute(r, delivered, logged)))
  {
    var w', j := Apply(cal, w, Execute(r, delivered, logged)), At(w, r);
    StepKeepsMutex(cal, w, Execute(r, delivered, logged));
    assert Holder(w) == j && Holder(w') == At(w', r);
    if logged {
      var log := Log(j.picked[j.next].contractId, cal.day(w.now));
      assert w'.logs == w.logs + [log];
      assert log !in w.logs;
    }
  }

  lemma StepKeepsInv(cal: Calendar, w: World, l: Label)
    requires GoodCalendar(cal) && Inv(cal, w) && Enabled(w, l)
    ensures Inv(cal, Apply(cal, w, l))
  {
    match l {
      case Check(r, payments) => CheckKeepsInv(cal, w, r, payments);
      case Execute(r, delivered, logged) => ExecuteKeepsInv(cal, w, r, delivered, logged);
      case _ => StepKeepsMutex(cal, w, l);
    }
  }

  ghost function Step(cal: Calendar): (World, Label) -> Option<World>
  {
    (w: World, l: Label) => if Enabled(w, l) then Some(Apply(cal, w, l)) else None
  }

  ghost predicate Runs(cal: Calendar, w: World, labels: seq<Label>, w': World)
  {
    T.Runs(Step(cal), w, labels, w')
  }

  lemma {:induction false} RunsKeepInv(cal: Calendar, w: World, labels: seq<Label>, w': World)
    requires GoodCalendar(cal) && Inv(cal, w) && Runs(cal, w, labels, w')
    ensures Inv(cal, w')
    decreases |labels|
  {
    if labels != [] {
      StepKeepsInv(cal, w, labels[0]);
      RunsKeepInv(cal, Apply(cal, w, labels[0]), labels[1..], w');
    }
  }

  /**
   Over any history of runs, crashes and days, a contract has at most one reminder log
   per day, even when a run that found it due finishes after midnight.
   */
  lemma OneReminderLogPerDay(cal: Calendar, now: int, labels: seq<Label>, w: World, i: nat, j: nat)
    requires GoodCalendar(cal) && Runs(cal, World(now, [], None, map[], []), labels, w)
    requires i < j < |w.logs| && w.logs[i].contractId == w.logs[j].contractId
    ensures w.logs[i].day != w.logs[j].day
  {
    RunsKeepInv(cal, World(now, [], None, map[], []), labels, w);
  }

  // ---- deliveries ---------------------------------------------------------------------------

  /** How often the contract was reminded on the day. */
  function Deliveries(delivered: seq<Delivery>, contractId: int, day: int): nat
  {
    if delivered == [] then 0
    else
      var d := delivered[|delivered| - 1];
      Deliveries(delivered[..|delivered| - 1], contractId, day)
          + (if d.contractId == contractId && d.day == day then 1 else 0)
  }

  /** How often the contract was reminded on the day without the log being written. */
  function Unlogged(delivered: seq<Delivery>, contractId: int, day: int): nat
  {
    if delivered == [] then 0
    else
      var d := delivered[|delivered| - 1];
      Unlogged(delivered[..|delivered| - 1], contractId, day)
      + (if d.contractId == contractId && d.day == day && !d.logged then 1 else 0)
  }

  predicate DeliveriesAccounted(w: World, contractId: int, day: int)
  {
    Deliveries(w.delivered, contractId, day)
    == Unlogged(w.delivered, contractId, day) + (if HasSentOn(w.logs, contractId, day) then 1 else 0)
  }

  lemma DeliveryAppend(delivered: seq<Delivery>, d: Delivery, contractId: int, day: int)
    ensures var hit := d.contractId == contractId && d.day == day;
            && Deliveries(delivered + [d], contractId, day)
                == Deliveries(delivered, contractId, day) + (if hit then 1 else 0)
            && Unlogged(delivered + [d], contractId, day)
               == Unlogged(delivered, contractId, day) + (if hit && !d.logged then 1 else 0)
  {
    assert (delivered + [d])[..|delivered|] == delivered;
  }

  /** What is about to be executed has no log of today, even if midnight passed since it was picked. */
  lemma PickHasNoLog(cal: Calendar, w: World, r: Replica)
    requires Inv(cal, w) && At(w, r).Sending? && At(w, r).next < |At(w, r).picked|
    ensures !HasSentOn(w.logs, At(w, r).picked[At(w, r).next].contractId, cal.day(w.now))
  {
    assert Holder(w) == At(w, r);
  }

  lemma DeliveryKeepsAccount(w: World, w': World, d: Delivery, contractId: int, day: int)
    requires DeliveriesAccounted(w, contractId, day) && !HasSentOn(w.logs, d.contractId, d.day)
    requires w'.delivered == w.delivered + [d]
    requires w'.logs == if d.logged then w.logs + [Log(d.contractId, d.day)] else w.logs
    ensures DeliveriesAccounted(w', contractId, day)
  {
    DeliveryAppend(w.delivered, d, contractId, day);
    assert Log(contractId, day) == Log(d.contractId, d.day) <==> d.contractId == contractId && d.day == day;
  }

  lemma StepKeepsDeliveries(cal: Calendar, w: World, l: Label, contractId: int, day: int)
    requires Inv(cal, w) && Enabled(w, l) && DeliveriesAccounted(w, contractId, day)
    ensures DeliveriesAccounted(Apply(cal, w, l), contractId, day)
  {
    var w' := Apply(cal, w, l);
    if l.Execute? && l.delivered {
      PickHasNoLog(cal, w, l.r);
      var id := At(w, l.r).picked[At(w, l.r).next].contractId;
      DeliveryKeepsAccount(w, w', Delivery(id, cal.day(w.now), l.logged), contractId, day);
    } else {
      assert w'.delivered == w.delivered && w'.logs == w.logs;
    }
  }

  lemma {:induction false} RunsKeepDeliveries(cal: Calendar, w: World, labels: seq<Label>, w': World, contractId: int,
                                              day: int)
    requires GoodCalendar(cal) && Inv(cal, w) && Runs(cal, w, labels, w') && DeliveriesAccounted(w, contractId, day)
    ensures DeliveriesAccounted(w', contractId, day)
    decreases |labels|
  {
    if labels != [] {
      StepKeepsInv(cal, w, labels[0]);
      StepKeepsDeliveries(cal, w, labels[0], contractId, day);
      RunsKeepDeliveries(cal, Apply(cal, w, labels[0]), labels[1..], w', contractId, day);
    }
  }

  /**
   Over any history, a contract is reminded on a day once for every reminder whose log
   was lost, plus once if there is a log of that day: at most once more than logs were
   lost on it.
   */
  lemma RemindersPerDay(cal: Calendar, now: int, labels: seq<Label>, w: World, contractId: int, day: int)
    requires GoodCalendar(cal) && Runs(cal, World(now, [], None, map[], []), labels, w)
    ensures Deliveries(w.delivered, contractId, day)
            == Unlogged(w.delivered, contractId, day) + (if HasSentOn(w.logs, contractId, day) then 1 else 0)
    ensures Deliveries(w.delivered, contractId, day) <= Unlogged(w.delivered, contractId, day) + 1
  {
    RunsKeepDeliveries(cal, World(now, [], None, map[], []), labels, w, contractId, day);
  }
}
