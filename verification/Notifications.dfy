/** The notification node of app/agents/notification_node.py, and the reminder log it writes. */
module Notifications {
  import opened Prelude
  import D = DailyReminders

  datatype Trigger = MESSAGE | SCHEDULED_REMINDER

  datatype Mode = DIRECT | OUTBOX

  datatype NotificationStatus = SKIPPED | SENT | FAILED | PENDING

  class State {
    const trigger: Trigger
    const contractId: int
    const message: Option<string>
    var notificationSent: bool
    var notificationStatus: Option<NotificationStatus>

    constructor (trigger: Trigger, contractId: int, message: Option<string>)
      ensures this.trigger == trigger && this.contractId == contractId && this.message == message
      ensures !notificationSent && notificationStatus == None
    {
      this.trigger, this.contractId, this.message := trigger, contractId, message;
      notificationSent, notificationStatus := false, None;
    }
  }

  class ReminderLogRepository {
    var logs: seq<D.Log>

    constructor ()
      ensures logs == []
    {
      logs := [];
    }

    method Create(contractId: int, day: int)
      modifies this
      ensures logs == old(logs) + [D.Log(contractId, day)]
    {
      logs := logs + [D.Log(contractId, day)];
    }
  }

  class NotificationNode {
    const mode: Mode
    const repository: ReminderLogRepository
    var queued: seq<int>

    constructor (mode: Mode, repository: ReminderLogRepository)
      ensures this.mode == mode && this.repository == repository && queued == []
    {
      this.mode, this.repository, queued := mode, repository, [];
    }

    /**
     `delivered` is the provider's answer and `stores` says that the log can be written.
     A message is skipped, queued or sent; and what is sent for a scheduled reminder, and
     nothing else, is logged.
     */
    method Execute(state: State, delivered: bool, stores: bool, day: int) returns (raised: bool)
      modifies state, this`queued, repository
      ensures state.notificationStatus == Some(if state.message.None? then SKIPPED else if mode.OUTBOX? then PENDING
                                               else if delivered then SENT else FAILED)
      ensures state.notificationSent <==> state.notificationStatus == Some(SENT)
      ensures queued == if state.notificationStatus == Some(PENDING) then old(queued) + [state.contractId]
              else old(queued)
      ensures raised <==> state.notificationSent && state.trigger.SCHEDULED_REMINDER? && !stores
      ensures repository.logs == if state.notificationSent && state.trigger.SCHEDULED_REMINDER? && stores
                                 then old(repository.logs) + [D.Log(state.contractId, day)] else old(repository.logs)
    {
      if state.message.None? {
        state.notificationSent, state.notificationStatus := false, Some(SKIPPED);
        return false;
      }
      if mode.OUTBOX? {
        queued := queued + [state.contractId];
        state.notificationSent, state.notificationStatus := false, Some(PENDING);
        return false;
      }
      if delivered {
        state.notificationSent, state.notificationStatus := true, Some(SENT);
      } else {
        state.notificationSent, state.notificationStatus := false, Some(FAILED);
      }
      raised := MaybeLogReminder(state, stores, day);
    }

    /** Only successful scheduled reminders are logged. */
    method MaybeLogReminder(state: State, stores: bool, day: int) returns (raised: bool)
      modifies repository
      ensures raised <==> state.notificationSent && state.trigger.SCHEDULED_REMINDER? && !stores
      ensures repository.logs == if state.notificationSent && state.trigger.SCHEDULED_REMINDER? && stores
                                 then old(repository.logs) + [D.Log(state.contractId, day)] else old(repository.logs)
    {
      if !state.notificationSent || state.trigger != SCHEDULED_REMINDER {
        return false;
      }
      if !stores {
        return true;
      }
      repository.Create(state.contractId, day);
      raised := false;
    }
  }
}
