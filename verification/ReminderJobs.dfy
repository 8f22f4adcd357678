/**
 The daily reminder job itself: select the due contracts, remind each of them, record
 the run. Every step it takes is a step of the protocol in DailyReminders.
 */
module ReminderJobs {
  import opened Prelude
  import opened DailyReminders
  import opened SchedulerLock
  import L = Ledger
  import N = Notifications
  import T = Traces

  datatype RunStatus = RUNNING | COMPLETED | FAILED

  datatype Event = Event(contractId: int, sent: bool)

  /**
   What the surroundings do at one contract of the run: the time it takes, whether the
   nodes before the notification get through and with what message, the provider's answer,
   whether the log can be written, whether the agent run can be closed, and whether the
   event can be stored.
   */
  datatype Turn = Turn(elapsed: nat, prepared: bool, message: Option<string>, delivered: bool, logStores: bool,
                       closes: bool, eventStored: bool)

  /** What becomes of the run's last status write: stored, or replaced by FAILED with or without the counts, or lost. */
  datatype Finale = Stored | FailedInstead(countsStored: bool) | NothingStored

  /**
   What the surroundings do in one run: `payments(i)` is the payments table when contract
   number i is checked, and only the first `checkable` checks get through.
   */
  datatype Plan = Plan(runStored: bool, listed: bool, candidates: seq<Candidate>, checkable: nat,
                       elapsed: nat -> nat, payments: nat -> seq<L.Payment>, turns: nat -> Turn, finale: Finale)

  predicate SelectionWorks(plan: Plan)
  {
    plan.listed && |plan.candidates| <= plan.checkable
  }

  /** The reminder went out. */
  predicate Delivers(turn: Turn)
  {
    turn.prepared && turn.message.Some? && turn.delivered
  }

  /** The reminder went out, and its log was written. */
  predicate WritesLog(turn: Turn)
  {
    Delivers(turn) && turn.logStores
  }

  /** No exception escapes: the message was skipped, refused or delivered and logged, and the agent run was closed. */
  predicate Executes(turn: Turn)
  {
    turn.prepared && turn.closes && (turn.message.Some? && turn.delivered ==> turn.logStores)
  }

  class SchedulerRun {
    var status: RunStatus
    var totalContracts: nat
    var successfulCount: nat
    var failedCount: nat
    var events: seq<Event>

    constructor ()
      ensures status == RUNNING && events == [] && totalContracts == successfulCount == failedCount == 0
    {
      status, events := RUNNING, [];
      totalContracts, successfulCount, failedCount := 0, 0, 0;
    }
  }

  function SentEvents(events: seq<Event>): nat
  {
    if events == [] then 0 else SentEvents(events[..|events| - 1]) + (if events[|events| - 1].sent then 1 else 0)
  }

  // ---- the protocol steps of a run -------------------------------------------------------------

  /** Checking the first `n` contracts. */
  function CheckLabels(r: Replica, plan: Plan, n: nat): seq<Label>
  {
    if n == 0 then []
    else CheckLabels(r, plan, n - 1) + [Tick(plan.elapsed(n - 1))] + [Check(r, plan.payments(n - 1))]
  }

  function SelectionLabels(r: Replica, plan: Plan): seq<Label>
  {
    if !plan.listed then []
    else if !SelectionWorks(plan) then [ListContracts(r, plan.candidates)] + CheckLabels(r, plan, plan.checkable)
    else [ListContracts(r, plan.candidates)] + CheckLabels(r, plan, |plan.candidates|) + [Selected(r)]
  }

  function ExecuteLabel(r: Replica, turn: Turn): Label
  {
    Execute(r, Delivers(turn), WritesLog(turn))
  }

  /** Reminding the first `n` contracts. */
  function TurnLabels(r: Replica, turns: nat -> Turn, n: nat): seq<Label>
  {
    if n == 0 then []
    else TurnLabels(r, turns, n - 1) + [Tick(turns(n - 1).elapsed)] + [ExecuteLabel(r, turns(n - 1))]
  }

  /**
   How many of `n` contracts are tried, counting from number k: all, or up to the first
   whose event cannot be stored.
   */
  function Tried(turns: nat -> Turn, k: nat, n: nat): nat
    decreases n - k
  {
    if k >= n then n else if turns(k).eventStored then Tried(turns, k + 1, n) else k + 1
  }

  function SendingLabels(r: Replica, turns: nat -> Turn, n: nat): seq<Label>
  {
    TurnLabels(r, turns, Tried(turns, 0, n)) + [Finish(r)]
  }

  /** The protocol steps of one run that selects `picks` contracts. */
  function RunLabels(r: Replica, plan: Plan, picks: nat): seq<Label>
  {
    if !plan.runStored then [Finish(r)]
    else if !SelectionWorks(plan) then SelectionLabels(r, plan) + [Finish(r)]
    else SelectionLabels(r, plan) + SendingLabels(r, plan.turns, picks)
  }

  // ---- selection ----------------------------------------------------------------------------------

  /** The time that passes while the first `n` contracts are checked. */
  function Elapsed(elapsed: nat -> nat, n: nat): nat
  {
    if n == 0 then 0 else Elapsed(elapsed, n - 1) + elapsed(n - 1)
  }

  predicate WasPicked(picked: seq<Pick>, id: int)
  {
    exists k | 0 <= k < |picked| :: picked[k].contractId == id
  }

  /** The day on which contract number `i` is checked. */
  function CheckDay(cal: Calendar, start: int, elapsed: nat -> nat, i: nat): int
  {
    cal.day(start + Elapsed(elapsed, i) + elapsed(i))
  }

  /** Of the first `n` contracts exactly those are picked that the policy wants reminded on the day they are checked. */
  ghost predicate SelectedRight(picked: seq<Pick>, plan: Plan, logs: seq<Log>, cal: Calendar, start: int, n: nat)
    requires n <= |plan.candidates|
  {
    && (forall i | 0 <= i < n ::
          WasPicked(picked, plan.candidates[i].contract.id)
          == ShouldSend(plan.candidates[i], plan.payments(i), logs, CheckDay(cal, start, plan.elapsed, i)))
    && (forall i | n <= i < |plan.candidates| :: !WasPicked(picked, plan.candidates[i].contract.id))
  }

  lemma PickAdds(picked: seq<Pick>, pick: Pick, id: int)
    ensures WasPicked(picked + [pick], id) == (WasPicked(picked, id) || id == pick.contractId)
  {
    var longer := picked + [pick];
    assert longer[|picked|] == pick;
    if WasPicked(picked, id) {
      var k :| 0 <= k < |picked| && picked[k].contractId == id;
      assert longer[k].contractId == id;
    }
  }

  lemma CheckSelectsRight(picked: seq<Pick>, plan: Plan, logs: seq<Log>, cal: Calendar, start: int, n: nat)
    requires n < |plan.candidates| && DistinctCandidates(plan.candidates)
             && SelectedRight(picked, plan, logs, cal, start, n)
    ensures SelectedRight(Checked(picked, plan.candidates[n], plan.payments(n), logs,
                                  CheckDay(cal, start, plan.elapsed, n)), plan, logs, cal, start, n + 1)
  {
    var today := CheckDay(cal, start, plan.elapsed, n);
    var due := ShouldSend(plan.candidates[n], plan.payments(n), logs, today);
    var id := plan.candidates[n].contract.id;
    var picked' := Checked(picked, plan.candidates[n], plan.payments(n), logs, today);
    forall i | 0 <= i < |plan.candidates|
      ensures WasPicked(picked', plan.candidates[i].contract.id) == if i == n then due
              else WasPicked(picked, plan.candidates[i].contract.id)
    {
      PickAdds(picked, Pick(id, today), plan.candidates[i].contract.id);
    }
  }

  /** The checking loop of replica r stands at contract number i. */
  ghost predicate SelectingAt(cal: Calendar, w: World, m: World, r: Replica, plan: Plan, i: nat, picked: seq<Pick>)
  {
    && i <= |plan.candidates|
    && Runs(cal, w, [ListContracts(r, plan.candidates)] + CheckLabels(r, plan, i), m)
        && At(m, r) == Selecting(plan.candidates[i..], picked)
  }

  lemma SelectionStarts(cal: Calendar, w: World, r: Replica, plan: Plan) returns (m: World)
    requires At(w, r).Locked? && DistinctCandidates(plan.candidates)
    ensures SelectingAt(cal, w, m, r, plan, 0, []) && m.logs == w.logs && m.now == w.now
    ensures SelectedRight([], plan, m.logs, cal, m.now, 0)
  {
    m := Apply(cal, w, ListContracts(r, plan.candidates));
    T.One(Step(cal), w, ListContracts(r, plan.candidates), m);
    assert [ListContracts(r, plan.candidates)] + CheckLabels(r, plan, 0) == [ListContracts(r, plan.candidates)];
    assert plan.candidates[0..] == plan.candidates;
  }

  lemma SelectionGoesOn(cal: Calendar, w: World, m: World, r: Replica, plan: Plan, i: nat, picked: seq<Pick>)
    returns (m': World)
    requires SelectingAt(cal, w, m, r, plan, i, picked) && i < |plan.candidates|
    ensures m'.logs == m.logs && m'.now == m.now + plan.elapsed(i)
    ensures SelectingAt(cal, w, m', r, plan, i + 1, Checked(picked, plan.candidates[i], plan.payments(i), m.logs,
                                                            cal.day(m'.now)))
  {
    var labels := [ListContracts(r, plan.candidates)] + CheckLabels(r, plan, i);
    var tick, check := Tick(plan.elapsed(i)), Check(r, plan.payments(i));
    var t := Apply(cal, m, tick);
    T.Snoc(Step(cal), w, labels, m, tick, t);
    m' := Apply(cal, t, check);
    T.Snoc(Step(cal), w, labels + [tick], t, check, m');
    assert labels + [tick] + [check] == [ListContracts(r, plan.candidates)] + CheckLabels(r, plan, i + 1);
    assert plan.candidates[i..][1..] == plan.candidates[i + 1..];
  }

  /** One more check, for the protocol and for what is selected. */
  lemma CheckGoesOn(cal: Calendar, w: World, m: World, r: Replica, plan: Plan, i: nat, chosen: seq<Pick>, start: int)
    returns (picked: seq<Pick>, m': World)
    requires i < |plan.candidates| && DistinctCandidates(plan.candidates) && SelectingAt(cal, w, m, r, plan, i, chosen)
    requires m.now == start + Elapsed(plan.elapsed, i) && SelectedRight(chosen, plan, m.logs, cal, start, i)
    ensures m'.logs == m.logs && m'.now == m.now + plan.elapsed(i)
    ensures picked == Checked(chosen, plan.candidates[i], plan.payments(i), m.logs, cal.day(m'.now))
    ensures SelectingAt(cal, w, m', r, plan, i + 1, picked) && SelectedRight(picked, plan, m.logs, cal, start, i + 1)
  {
    CheckSelectsRight(chosen, plan, m.logs, cal, start, i);
    m' := SelectionGoesOn(cal, w, m, r, plan, i, chosen);
    picked := Checked(chosen, plan.candidates[i], plan.payments(i), m.logs, cal.day(m'.now));
    assert CheckDay(cal, start, plan.elapsed, i) == cal.day(m'.now);
  }

  lemma SelectionEnds(cal: Calendar, w: World, m: World, r: Replica, plan: Plan, picked: seq<Pick>) returns (w': World)
    requires SelectionWorks(plan) && SelectingAt(cal, w, m, r, plan, |plan.candidates|, picked)
    ensures Runs(cal, w, SelectionLabels(r, plan), w')
    ensures At(w', r) == Sending(picked, 0) && w'.logs == m.logs && w'.now == m.now
  {
    w' := Apply(cal, m, Selected(r));
    T.Snoc(Step(cal), w, [ListContracts(r, plan.candidates)] + CheckLabels(r, plan, |plan.candidates|), m,
           Selected(r), w');
  }

  // ---- sending --------------------------------------------------------------------------------------

  /** The sending loop of replica r stands at pick number k. */
  ghost predicate SendingAt(cal: Calendar, w: World, m: World, r: Replica, picked: seq<Pick>, turns: nat -> Turn,
                            k: nat)
  {
    Runs(cal, w, TurnLabels(r, turns, k), m) && At(m, r) == Sending(picked, k)
  }

  lemma SendingGoesOn(cal: Calendar, w: World, m: World, r: Replica, picked: seq<Pick>, turns: nat -> Turn, k: nat)
    returns (m': World)
    requires SendingAt(cal, w, m, r, picked, turns, k) && k < |picked|
    ensures SendingAt(cal, w, m', r, picked, turns, k + 1) && m'.now == m.now + turns(k).elapsed
    ensures m'.logs == if WritesLog(turns(k)) then m.logs + [Log(picked[k].contractId, cal.day(m'.now))] else m.logs
  {
    var labels, tick, execute := TurnLabels(r, turns, k), Tick(turns(k).elapsed), ExecuteLabel(r, turns(k));
    var t := Apply(cal, m, tick);
    T.Snoc(Step(cal), w, labels, m, tick, t);
    m' := Apply(cal, t, execute);
    T.Snoc(Step(cal), w, labels + [tick], t, execute, m');
  }

  lemma SendingEnds(cal: Calendar, w: World, m: World, r: Replica, picked: seq<Pick>, turns: nat -> Turn, k: nat)
    returns (w': World)
    requires SendingAt(cal, w, m, r, picked, turns, k)
    ensures Runs(cal, w, TurnLabels(r, turns, k) + [Finish(r)], w') && At(w', r).Closing? && w'.now == m.now
            && w'.logs == m.logs
  {
    w' := Apply(cal, m, Finish(r));
    T.Snoc(Step(cal), w, TurnLabels(r, turns, k), m, Finish(r), w');
  }

  /** The bookkeeping of the first `k` contracts, all of whose events were stored. */
  ghost predicate Booked(events: seq<Event>, picked: seq<Pick>, turns: nat -> Turn, k: nat, successful: nat,
                         failed: nat)
  {
    && k == |events| <= |picked| && successful == SentEvents(events) && successful + failed == k
    && (forall i | 0 <= i < k :: events[i] == Event(picked[i].contractId, Executes(turns(i))))
    && (forall i: nat | i < k :: turns(i).eventStored)
    && Tried(turns, 0, |picked|) == Tried(turns, k, |picked|)
  }

  lemma BookOne(events: seq<Event>, picked: seq<Pick>, turns: nat -> Turn, k: nat, successful: nat, failed: nat)
    requires Booked(events, picked, turns, k, successful, failed) && k < |picked|
    ensures turns(k).eventStored ==>
              var completed := Executes(turns(k));
              Booked(events + [Event(picked[k].contractId, completed)], picked, turns, k + 1,
                     successful + (if completed then 1 else 0), failed + (if completed then 0 else 1))
  {
    var event := Event(picked[k].contractId, Executes(turns(k)));
    assert (events + [event])[..k] == events;
  }

  // ---- what a run records -------------------------------------------------------------------------------

  predicate AllEventsStored(turns: nat -> Turn, n: nat)
  {
    forall k: nat | k < n :: turns(k).eventStored
  }

  /** The status of a run that selects `picks` contracts: COMPLETED exactly if nothing failed that had to be stored. */
  function FinalStatus(plan: Plan, picks: nat): RunStatus
  {
    if SelectionWorks(plan) && AllEventsStored(plan.turns, picks) && plan.finale.Stored? then COMPLETED
    else if plan.finale.NothingStored? then RUNNING
    else FAILED
  }

  /**
   What a finished run records: its status; one event per contract tried, in order; and
   counts that add up to the contracts selected, or 0 if the run failed before they were
   stored. A COMPLETED run has an event for every contract selected.
   */
  ghost predicate Recorded(status: RunStatus, events: seq<Event>, total: nat, successful: nat, failed: nat,
                           picked: seq<Pick>, plan: Plan)
  {
    && status == FinalStatus(plan, |picked|)
    && |events| <= |picked|
    && (SelectionWorks(plan) ==>
          |events| == Tried(plan.turns, 0, |picked|) - (if AllEventsStored(plan.turns, |picked|) then 0 else 1))
    && (!SelectionWorks(plan) ==> picked == [])
    && (forall k | 0 <= k < |events| :: events[k] == Event(picked[k].contractId, Executes(plan.turns(k))))
    && (status == COMPLETED ==>
          |events| == |picked| == total == successful + failed && successful == SentEvents(events))
    && (status != COMPLETED ==>
          if SelectionWorks(plan) && AllEventsStored(plan.turns, |picked|) && plan.finale == FailedInstead(true)
          then |events| == |picked| == total == successful + failed && successful == SentEvents(events)
          else total == successful == failed == 0)
  }

  /** What the last write leaves: the run's status and whether its counts are stored with it. */
  function CountsKept(plan: Plan): bool
  {
    plan.finale.Stored? || plan.finale == FailedInstead(true)
  }

  lemma FinishedRunIsRecorded(events: seq<Event>, picked: seq<Pick>, plan: Plan, successful: nat, failed: nat)
    requires SelectionWorks(plan) && Booked(events, picked, plan.turns, |picked|, successful, failed)
    ensures var kept := CountsKept(plan);
            Recorded(FinalStatus(plan, |picked|), events, if kept then |picked| else 0, if kept then successful else 0,
                     if kept then failed else 0, picked, plan)
    ensures Tried(plan.turns, 0, |picked|) == |picked| && AllEventsStored(plan.turns, |picked|)
  {
  }

  lemma BrokenRunIsRecorded(events: seq<Event>, picked: seq<Pick>, plan: Plan, k: nat, successful: nat, failed: nat)
    requires SelectionWorks(plan) && Booked(events, picked, plan.turns, k, successful, failed) && k < |picked|
             && !plan.turns(k).eventStored
    ensures Recorded(FinalStatus(plan, |picked|), events, 0, 0, 0, picked, plan)
    ensures Tried(plan.turns, 0, |picked|) == k + 1 && !AllEventsStored(plan.turns, |picked|)
  {
  }

  // ---- the job ------------------------------------------------------------------------------------

  class ReminderJob {
    const repository: N.ReminderLogRepository
    const node: N.NotificationNode
    const cal: Calendar
    var now: int

    constructor (repository: N.ReminderLogRepository, node: N.NotificationNode, cal: Calendar, now: int)
      ensures this.repository == repository && this.node == node && this.cal == cal && this.now == now
    {
      this.repository, this.node, this.cal, this.now := repository, node, cal, now;
    }

    /** Direct mode: the node delivers itself and logs into the repository that the policy reads. */
    predicate Direct()
    {
      node.mode.DIRECT? && node.repository == repository
    }

    /** get_pending_reminders: time may pass between one contract and the next, and any query may raise. */
    method GetPendingReminders(plan: Plan, ghost r: Replica, ghost w: World)
      returns (picked: seq<Pick>, raised: bool, ghost w': World)
      requires At(w, r).Locked? && w.logs == repository.logs && w.now == now && DistinctCandidates(plan.candidates)
      modifies `now
      ensures raised == !SelectionWorks(plan)
      ensures Runs(cal, w, SelectionLabels(r, plan), w') && w'.logs == repository.logs && w'.now == now
      ensures if raised then picked == [] && InRun(At(w', r)) else At(w', r) == Sending(picked, 0)
      ensures !raised ==> SelectedRight(picked, plan, repository.logs, cal, old(now), |plan.candidates|)
    {
      picked, w' := [], w;
      if !plan.listed {
        return [], true, w;
      }
      w' := SelectionStarts(cal, w, r, plan);
      for i := 0 to |plan.candidates|
        invariant i <= plan.checkable
        invariant SelectingAt(cal, w, w', r, plan, i, picked) && w'.logs == repository.logs && w'.now == now
        invariant now == old(now) + Elapsed(plan.elapsed, i)
                  && SelectedRight(picked, plan, repository.logs, cal, old(now), i)
      {
        if i == plan.checkable {
          return [], true, w';
        }
        picked, w' := CheckOne(plan, i, picked, r, w, w', old(now));
      }
      raised := false;
      w' := SelectionEnds(cal, w, w', r, plan, picked);
    }

    /** should_send_reminder for contract number i. */
    method CheckOne(plan: Plan, i: nat, chosen: seq<Pick>, ghost r: Replica, ghost w: World, ghost m: World,
                    ghost start: int)
      returns (picked: seq<Pick>, ghost m': World)
      requires i < |plan.candidates| && DistinctCandidates(plan.candidates)
               && SelectingAt(cal, w, m, r, plan, i, chosen)
      requires m.logs == repository.logs && m.now == now == start + Elapsed(plan.elapsed, i)
      requires SelectedRight(chosen, plan, repository.logs, cal, start, i)
      modifies `now
      ensures SelectingAt(cal, w, m', r, plan, i + 1, picked) && m'.logs == repository.logs && m'.now == now
      ensures now == start + Elapsed(plan.elapsed, i + 1)
      ensures SelectedRight(picked, plan, repository.logs, cal, start, i + 1)
    {
      ghost var longer;
      longer, m' := CheckGoesOn(cal, w, m, r, plan, i, chosen, start);
      now := now + plan.elapsed(i);
      var today := cal.day(now);
      picked := chosen;
      if ShouldSend(plan.candidates[i], plan.payments(i), repository.logs, today) {
        picked := picked + [Pick(plan.candidates[i].contract.id, today)];
      }
      assert picked == longer;
    }

    /** One reminder, through the nodes: `completed` says that no exception escapes. */
    method Execute(pick: Pick, turn: Turn) returns (completed: bool)
      requires Direct()
      modifies `now, repository, node`queued
      ensures now == old(now) + turn.elapsed && completed == Executes(turn)
      ensures repository.logs == if WritesLog(turn) then old(repository.logs) + [Log(pick.contractId, cal.day(now))]
              else old(repository.logs)
    {
      now := now + turn.elapsed;
      if !turn.prepared {
        return false;
      }
      var state := new N.State(N.SCHEDULED_REMINDER, pick.contractId, turn.message);
      var raised := node.Execute(state, turn.delivered, turn.logStores, cal.day(now));
      completed := !raised && turn.closes;
    }

    /** The sending loop and its bookkeeping. */
    method RunReminders(picked: seq<Pick>, run: SchedulerRun, plan: Plan, ghost r: Replica, ghost w: World)
      returns (ghost w': World)
      requires Direct() && SelectionWorks(plan)
      requires At(w, r) == Sending(picked, 0) && w.logs == repository.logs && w.now == now
      requires run.status == RUNNING && run.events == []
               && run.totalContracts == run.successfulCount == run.failedCount == 0
      modifies `now, repository, node`queued, run
      ensures Runs(cal, w, SendingLabels(r, plan.turns, |picked|), w') && At(w', r).Closing?
              && w'.logs == repository.logs && w'.now == now
      ensures Recorded(run.status, run.events, run.totalContracts, run.successfulCount, run.failedCount, picked, plan)
    {
      assert Runs(cal, w, [], w);
      var stored, successful, failed;
      stored, successful, failed, w' := RemindAll(run, picked, plan, r, w);
      if !stored {
        MarkFailed(run, plan.finale);
        return;
      }
      CompleteRun(run, |picked|, successful, failed, plan.finale);
      FinishedRunIsRecorded(run.events, picked, plan, successful, failed);
      w' := SendingEnds(cal, w, w', r, picked, plan.turns, |picked|);
    }

    /** The counts and the COMPLETED status, which are stored together, or the except branch in their place. */
    method CompleteRun(run: SchedulerRun, total: nat, successful: nat, failed: nat, finale: Finale)
      requires run.status == RUNNING && run.totalContracts == run.successfulCount == run.failedCount == 0
      modifies run`status, run`totalContracts, run`successfulCount, run`failedCount
      ensures run.status == COMPLETED <==> finale.Stored?
      ensures run.status == RUNNING <==> finale.NothingStored?
      ensures var kept := finale.Stored? || finale == FailedInstead(true);
              && run.totalContracts == (if kept then total else 0)
              && run.successfulCount == (if kept then successful else 0)
              && run.failedCount == (if kept then failed else 0)
    {
      match finale {
        case Stored =>
          run.totalContracts, run.successfulCount, run.failedCount := total, successful, failed;
          run.status := COMPLETED;
        case FailedInstead(countsStored) =>
          if countsStored {
            run.totalContracts, run.successfulCount, run.failedCount := total, successful, failed;
          }
          MarkFailed(run, finale);
        case NothingStored =>
          MarkFailed(run, finale);
      }
    }

    /** The top-level except branch, whose own write may be lost. */
    method MarkFailed(run: SchedulerRun, finale: Finale)
      modifies run`status
      ensures run.status == if finale.NothingStored? then old(run.status) else FAILED
    {
      if !finale.NothingStored? {
        run.status := FAILED;
      }
    }

    /** The loop, which an event that cannot be stored ends. */
    method RemindAll(run: SchedulerRun, picked: seq<Pick>, plan: Plan, ghost r: Replica, ghost w: World)
      returns (stored: bool, successful: nat, failed: nat, ghost w': World)
      requires Direct() && SelectionWorks(plan)
      requires run.events == [] && SendingAt(cal, w, w, r, picked, plan.turns, 0) && w.logs == repository.logs
               && w.now == now
      modifies `now, repository, node`queued, run`events
      ensures w'.logs == repository.logs && w'.now == now
      ensures stored ==>
                SendingAt(cal, w, w', r, picked, plan.turns, |picked|)
                    && Booked(run.events, picked, plan.turns, |picked|, successful, failed)
      ensures !stored ==> Runs(cal, w, SendingLabels(r, plan.turns, |picked|), w') && At(w', r).Closing?
      ensures !stored ==> Recorded(FinalStatus(plan, |picked|), run.events, 0, 0, 0, picked, plan)
      ensures !stored ==> !AllEventsStored(plan.turns, |picked|)
    {
      stored, successful, failed, w' := true, 0, 0, w;
      for k := 0 to |picked|
        invariant stored && w'.logs == repository.logs && w'.now == now
        invariant SendingAt(cal, w, w', r, picked, plan.turns, k)
                  && Booked(run.events, picked, plan.turns, k, successful, failed)
      {
        stored, successful, failed, w' := RemindOne(run, picked, plan, k, successful, failed, r, w, w');
        if !stored {
          return;
        }
      }
    }

    /** The loop body: remind contract number k, count it, store its event. */
    method RemindOne(run: SchedulerRun, picked: seq<Pick>, plan: Plan, k: nat, sent: nat, raised: nat,
                     ghost r: Replica, ghost w: World, ghost m: World)
      returns (stored: bool, successful: nat, failed: nat, ghost w': World)
      requires Direct() && SelectionWorks(plan)
      requires k < |picked| && SendingAt(cal, w, m, r, picked, plan.turns, k) && m.logs == repository.logs
               && m.now == now
      requires Booked(run.events, picked, plan.turns, k, sent, raised)
      modifies `now, repository, node`queued, run`events
      ensures w'.logs == repository.logs && w'.now == now && stored == plan.turns(k).eventStored
      ensures stored ==>
                SendingAt(cal, w, w', r, picked, plan.turns, k + 1)
                    && Booked(run.events, picked, plan.turns, k + 1, successful, failed)
      ensures !stored ==> Runs(cal, w, SendingLabels(r, plan.turns, |picked|), w') && At(w', r).Closing?
      ensures !stored ==> Recorded(FinalStatus(plan, |picked|), run.events, 0, 0, 0, picked, plan)
      ensures !stored ==> !AllEventsStored(plan.turns, |picked|)
    {
      var turn := plan.turns(k);
      w' := SendingGoesOn(cal, w, m, r, picked, plan.turns, k);
      BookOne(run.events, picked, plan.turns, k, sent, raised);
      var completed := Execute(picked[k], turn);
      if completed {
        successful, failed := sent + 1, raised;
      } else {
        successful, failed := sent, raised + 1;
      }
      stored := turn.eventStored;
      if stored {
        run.events := run.events + [Event(picked[k].contractId, completed)];
      } else {
        BrokenRunIsRecorded(run.events, picked, plan, k, sent, raised);
        w' := SendingEnds(cal, w, w', r, picked, plan.turns, k + 1);
      }
    }

    /** _execute_daily_reminders, with its top-level except branch; without a stored run there is none to report. */
    method ExecuteDailyReminders(plan: Plan, ghost r: Replica, ghost w: World)
      returns (run: Option<SchedulerRun>, picked: seq<Pick>, ghost w': World)
      requires Direct() && At(w, r).Locked? && w.logs == repository.logs && w.now == now
               && DistinctCandidates(plan.candidates)
      modifies `now, repository, node`queued
      ensures Runs(cal, w, RunLabels(r, plan, |picked|), w') && At(w', r).Closing? && w'.logs == repository.logs
              && w'.now == now
      ensures run.Some? == plan.runStored
      ensures run.None? ==> repository.logs == old(repository.logs)
      ensures run.Some? && SelectionWorks(plan) ==>
                SelectedRight(picked, plan, old(repository.logs), cal, old(now), |plan.candidates|)
      ensures run.Some? ==> fresh(run.value)
      ensures run.Some? ==>
                Recorded(run.value.status, run.value.events, run.value.totalContracts, run.value.successfulCount,
                         run.value.failedCount, picked, plan)
    {
      if !plan.runStored {
        w' := AbandonRuns(cal, w, [], w, r);
        assert [] + [Finish(r)] == [Finish(r)];
        return None, [], w';
      }
      var started := new SchedulerRun();
      var raised;
      picked, raised, w' := GetPendingReminders(plan, r, w);
      if raised {
        w' := AbandonRuns(cal, w, SelectionLabels(r, plan), w', r);
        MarkFailed(started, plan.finale);
      } else {
        ghost var m := w';
        w' := RunReminders(picked, started, plan, r, m);
        T.Append(Step(cal), w, SelectionLabels(r, plan), m, SendingLabels(r, plan.turns, |picked|), w');
      }
      run := Some(started);
    }
  }

  /** An exception before the sending loop. */
  lemma AbandonRuns(cal: Calendar, w: World, labels: seq<Label>, m: World, r: Replica) returns (w': World)
    requires (labels == [] && m == w) || Runs(cal, w, labels, m)
    requires InRun(At(m, r))
    ensures Runs(cal, w, labels + [Finish(r)], w') && At(w', r).Closing? && w'.logs == m.logs && w'.now == m.now
  {
    w' := Apply(cal, m, Finish(r));
    T.Snoc(Step(cal), w, labels, m, Finish(r), w');
  }

  /** The protocol steps of one job. */
  function JobLabels(r: Replica, lock: Option<Replica>, plan: Plan, picks: nat): seq<Label>
  {
    if lock.Some? then [Acquire(r)] else [Acquire(r)] + RunLabels(r, plan, picks) + [Release(r)]
  }

  lemma JobStarts(cal: Calendar, w: World, r: Replica) returns (m: World)
    requires At(w, r).Idle?
    ensures Runs(cal, w, [Acquire(r)], m) && m.logs == w.logs && m.now == w.now
    ensures if w.lock.Some? then m == w else m.lock == Some(r) && At(m, r).Locked?
  {
    m := Apply(cal, w, Acquire(r));
    T.One(Step(cal), w, Acquire(r), m);
  }

  lemma JobEnds(cal: Calendar, w: World, r: Replica, entry: World, run: seq<Label>, closing: World) returns (w': World)
    requires GoodCalendar(cal) && Inv(cal, w)
    requires Runs(cal, w, [Acquire(r)], entry) && Runs(cal, entry, run, closing) && At(closing, r).Closing?
    ensures Runs(cal, w, [Acquire(r)] + run + [Release(r)], w') && Inv(cal, w')
    ensures w'.logs == closing.logs && w'.now == closing.now && At(w', r).Idle? && w'.lock == None
  {
    T.Append(Step(cal), w, [Acquire(r)], entry, run, closing);
    RunsKeepInv(cal, w, [Acquire(r)] + run, closing);
    w' := Apply(cal, closing, Release(r));
    T.Snoc(Step(cal), w, [Acquire(r)] + run, closing, Release(r), w');
    StepKeepsInv(cal, closing, Release(r));
  }

  /**
   One job on the replica that owns `lockService`, with a session of its own. If the lock
   is taken it does nothing; otherwise it selects, reminds and records, as a run of the
   protocol, and the lock ends as it began.
   */
  method SendDailyReminders(lockService: SchedulerLockService, job: ReminderJob, plan: Plan, ghost w: World)
    returns (run: Option<SchedulerRun>, ghost picked: seq<Pick>, ghost w': World)
    requires GoodCalendar(job.cal) && Inv(job.cal, w) && DistinctCandidates(plan.candidates) && job.Direct()
    requires lockService.Valid() && !lockService.acquired
             && lockService.db.holder == w.lock != Some(lockService.session)
    requires At(w, lockService.session).Idle? && job.repository.logs == w.logs && job.now == w.now
    modifies lockService`acquired, lockService.db, job`now, job.repository, job.node`queued
    ensures Runs(job.cal, w, JobLabels(lockService.session, w.lock, plan, |picked|), w')
    ensures Inv(job.cal, w') && At(w', lockService.session).Idle? && job.repository.logs == w'.logs && job.now == w'.now
    ensures lockService.Valid() && !lockService.acquired
            && lockService.db.holder == old(lockService.db.holder) == w'.lock
    ensures run.Some? <==> w.lock.None? && plan.runStored
    ensures run.None? ==> job.repository.logs == old(job.repository.logs)
    ensures run.Some? && SelectionWorks(plan) ==>
              SelectedRight(picked, plan, old(job.repository.logs), job.cal, old(job.now), |plan.candidates|)
    ensures run.Some? ==> fresh(run.value)
    ensures run.Some? ==>
              Recorded(run.value.status, run.value.events, run.value.totalContracts, run.value.successfulCount,
                       run.value.failedCount, picked, plan)
  {
    ghost var cal, r := job.cal, lockService.session;
    run, picked := None, [];
    ghost var entry := JobStarts(cal, w, r);
    w' := entry;
    var taken := lockService.Acquire();
    if taken {
      var due;
      run, due, w' := job.ExecuteDailyReminders(plan, r, entry);
      picked := due;
      w' := JobEnds(cal, w, r, entry, RunLabels(r, plan, |due|), w');
    }
    lockService.Release();
  }
}
