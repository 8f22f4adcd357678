/** Reminder dates (app/agents/reminder_engine.py); a date is a day number. */
module ReminderEngine {
  import opened Prelude
  import A = Arithmetic

  datatype Result<T> = Ok(value: T) | Err(message: string)

  function PendingAmount(totalAmount: int, totalPaid: int): int
  {
    Max(totalAmount - totalPaid, 0)
  }

  /** int(a / b): division that truncates toward zero. */
  function Truncated(a: int, b: int): int
    requires b > 0
  {
    if a >= 0 then a / b else -((-a) / b)
  }

  function PendingDays(dailyAmount: int, remainingAmount: int): Result<int>
  {
    if dailyAmount <= 0 then Err("Daily amount must be greater than zero")
       else Ok(Truncated(remainingAmount, dailyAmount))
  }

  /** The dates to remind about: consecutive days after the last covered one, capped by today and by the money. */
  method PendingDates(lastCovered: int, today: int, dailyAmount: int, remainingAmount: int)
    returns (result: Result<seq<int>>)
    ensures result.Err? <==> dailyAmount <= 0
    ensures result.Ok? ==>
              && |result.value| == Min(Max(Truncated(remainingAmount, dailyAmount), 0), Max(today - lastCovered, 0))
              && forall k | 0 <= k < |result.value| :: result.value[k] == lastCovered + 1 + k
  {
    var pendingDays := PendingDays(dailyAmount, remainingAmount);
    if pendingDays.Err? {
      return Err(pendingDays.message);
    }
    var dates: seq<int> := [];
    var current := lastCovered + 1;
    while current <= today && |dates| < pendingDays.value
      invariant current == lastCovered + 1 + |dates|
      invariant |dates| <= Max(pendingDays.value, 0) && |dates| <= Max(today - lastCovered, 0)
      invariant forall k | 0 <= k < |dates| :: dates[k] == lastCovered + 1 + k
      decreases today - current
    {
      dates := dates + [current];
      current := current + 1;
    }
    result := Ok(dates);
  }

  /** build_reminder_context: the dates, and the money asked for. */
  method BuildReminderContext(lastCovered: int, today: int, totalAmount: int, totalPaid: int, dailyAmount: int)
    returns (result: Result<(seq<int>, int)>)
    ensures result.Err? <==> dailyAmount <= 0
    ensures result.Ok? ==>
              var (dates, asked) := result.value;
              && (forall d :: d in dates <==>
                              && lastCovered < d <= today
                              && d - lastCovered <= PendingAmount(totalAmount, totalPaid) / dailyAmount)
              && asked == dailyAmount * |dates|
              && 0 <= asked <= PendingAmount(totalAmount, totalPaid)
              && (asked + dailyAmount <= PendingAmount(totalAmount, totalPaid) ==>
                    |dates| == Max(today - lastCovered, 0))
  {
    var remaining := PendingAmount(totalAmount, totalPaid);
    var pending := PendingDates(lastCovered, today, dailyAmount, remaining);
    if pending.Err? {
      return Err(pending.message);
    }
    var dates := pending.value;
    WithinRemaining(dailyAmount, |dates|, remaining);
    forall d | lastCovered < d <= lastCovered + |dates| ensures d in dates {
      assert d == dates[d - lastCovered - 1];
    }
    result := Ok((dates, dailyAmount * |dates|));
  }

  /** n daily amounts fit into the remaining money exactly if n is at most the quotient. */
  lemma WithinRemaining(daily: int, n: nat, remaining: nat)
    requires daily > 0
    ensures daily * n <= remaining <==> n <= remaining / daily
    ensures daily * n + daily <= remaining <==> n + 1 <= remaining / daily
    ensures daily * n >= 0
  {
    A.FitsIff(daily, n, remaining);
    A.FitsIff(daily, n + 1, remaining);
    A.Next(daily, n);
    A.NonNegative(daily, n);
  }
}
