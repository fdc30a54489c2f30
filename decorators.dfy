/** Alert decorators: wrappers that delegate the five alert fields to the wrapped alert and
    add a priority, or a repeat counter driven by a timer. A decorator is modelled around
    the alert value it finally delegates to. */
module Decorators {
  import opened Wrappers
  import opened Records

  const NullAlertMessage := "Alert cannot be null"
  const NullPriorityMessage := "Priority cannot be null"
  const DefaultReason := "No reason specified"

  /** The common part of every decorator: the wrapped alert, fixed at construction. */
  datatype AlertDecorator = AlertDecorator(decoratedAlert: Alert)
  {
    function GetPatientId(): int { decoratedAlert.patientId }
    function GetVitals(): Vitals { decoratedAlert.vitals }
    function GetTimestamp(): int { decoratedAlert.timestamp }
    function GetAlertType(): string { decoratedAlert.alertType }
    function GetDescription(): Description { decoratedAlert.description }
  }

  /** The constructor guard: wrapping null is refused. */
  function NewAlertDecorator(alert: Option<Alert>): (r: Result<AlertDecorator>)
    ensures r.Ok? <==> alert.Some?
    ensures alert.None? ==> r == Err(IllegalArgument(NullAlertMessage))
    ensures r.Ok? ==> r.value.GetPatientId() == alert.value.patientId
                      && r.value.GetVitals() == alert.value.vitals
                      && r.value.GetTimestamp() == alert.value.timestamp
                      && r.value.GetAlertType() == alert.value.alertType
                      && r.value.GetDescription() == alert.value.description
  {
    if alert.None? then Err(IllegalArgument(NullAlertMessage)) else Ok(AlertDecorator(alert.value))
  }

  datatype Priority = Low | Medium | High | Critical
  {
    function Level(): (n: nat)
      ensures n <= 3
    {
      match this
      case Low => 0
      case Medium => 1
      case High => 2
      case Critical => 3
    }
  }

  /** The levels order the priorities and tell them apart. */
  lemma LevelsDistinct(p: Priority, q: Priority)
    ensures p.Level() == q.Level() <==> p == q
    ensures Low.Level() < Medium.Level() < High.Level() < Critical.Level()
  {
  }

  function ReasonOrDefault(reason: Option<string>): (s: string)
    ensures reason.Some? ==> s == reason.value
    ensures reason.None? ==> s == DefaultReason
  {
    if reason.Some? then reason.value else DefaultReason
  }

  class PriorityAlertDecorator {
    const base: AlertDecorator
    var priority: Priority
    var priorityReason: string

    constructor(base: AlertDecorator, priority: Priority, reason: Option<string>)
      ensures this.base == base && this.priority == priority && priorityReason == ReasonOrDefault(reason)
    {
      this.base := base;
      this.priority := priority;
      this.priorityReason := ReasonOrDefault(reason);
    }

    /** `new PriorityAlertDecorator(alert, initialPriority, reason)`: the alert is checked first,
        then the priority. */
    static method Create(alert: Option<Alert>, initialPriority: Option<Priority>, reason: Option<string>)
      returns (r: Result<PriorityAlertDecorator>)
      ensures r.Ok? <==> alert.Some? && initialPriority.Some?
      ensures alert.None? ==> r == Err(IllegalArgument(NullAlertMessage))
      ensures alert.Some? && initialPriority.None? ==> r == Err(IllegalArgument(NullPriorityMessage))
      ensures r.Ok? ==> fresh(r.value) && r.value.base.decoratedAlert == alert.value
                        && r.value.priority == initialPriority.value
                        && r.value.priorityReason == ReasonOrDefault(reason)
    {
      var wrapped := NewAlertDecorator(alert);
      if wrapped.Err? {
        return Err(wrapped.error);
      }
      if initialPriority.None? {
        return Err(IllegalArgument(NullPriorityMessage));
      }
      var d := new PriorityAlertDecorator(wrapped.value, initialPriority.value, reason);
      return Ok(d);
    }

    method UpdatePriority(newPriority: Option<Priority>, reason: Option<string>) returns (r: Result<()>)
      modifies this`priority, this`priorityReason
      ensures newPriority.None? ==> r == Err(IllegalArgument(NullPriorityMessage))
                                    && priority == old(priority) && priorityReason == old(priorityReason)
      ensures newPriority.Some? ==> r == Ok(()) && priority == newPriority.value
                                    && priorityReason == ReasonOrDefault(reason)
    {
      if newPriority.None? {
        return Err(IllegalArgument(NullPriorityMessage));
      }
      priority := newPriority.value;
      priorityReason := ReasonOrDefault(reason);
      return Ok(());
    }
  }

  const NonPositiveIntervalMessage := "Repeat interval must be positive"
  const NegativeMaxMessage := "Max repeat count cannot be negative"
  const TimerCancelledMessage := "Timer already cancelled."

  /** The decorator's current timer task: none, one the timer runs, or one that was created
      but whose scheduling failed because the timer had been cancelled (it never runs). */
  datatype TaskState = NoTask | Scheduled | Unscheduled

  /** The counter and the task, as a value. */
  datatype RepeatState = RepeatState(count: nat, task: TaskState)

  /** One run of the task: count one more, and stop once a positive maximum is reached. */
  function TickStep(s: RepeatState, maxRepeatCount: nat): (t: RepeatState)
    requires s.task == Scheduled
    ensures t.count == s.count + 1
    ensures t.task == NoTask <==> maxRepeatCount > 0 && s.count + 1 >= maxRepeatCount
    ensures t.task != NoTask ==> t.task == Scheduled
  {
    var count := s.count + 1;
    if maxRepeatCount > 0 && count >= maxRepeatCount then RepeatState(count, NoTask)
    else RepeatState(count, s.task)
  }

  /** `n` firings of the timer; once the task is gone the timer no longer runs it. */
  function Ticks(s: RepeatState, maxRepeatCount: nat, n: nat): RepeatState
    decreases n
  {
    if n == 0 || s.task != Scheduled then s
    else Ticks(TickStep(s, maxRepeatCount), maxRepeatCount, n - 1)
  }

  /** With a maximum of zero the repetition never stops and every firing counts. */
  lemma {:induction false} UnlimitedNeverStops(count: nat, n: nat)
    ensures Ticks(RepeatState(count, Scheduled), 0, n) == RepeatState(count + n, Scheduled)
    decreases n
  {
    if n > 0 {
      UnlimitedNeverStops(count + 1, n - 1);
    }
  }

  /** With a positive maximum, a fresh repetition runs exactly `maxRepeatCount` times. */
  lemma {:induction false} StopsAtMax(maxRepeatCount: nat, count: nat, n: nat)
    requires 0 < maxRepeatCount && count < maxRepeatCount
    ensures Ticks(RepeatState(count, Scheduled), maxRepeatCount, n)
            == if count + n < maxRepeatCount then RepeatState(count + n, Scheduled)
               else RepeatState(maxRepeatCount, NoTask)
    decreases n
  {
    if n > 0 && count + 1 < maxRepeatCount {
      StopsAtMax(maxRepeatCount, count + 1, n - 1);
    }
  }

  class RepeatedAlertDecorator {
    const base: AlertDecorator
    const repeatInterval: int
    const maxRepeatCount: nat
    var repeatCount: nat
    var currentTask: TaskState
    var timerCancelled: bool

    constructor(base: AlertDecorator, repeatInterval: int, maxRepeatCount: nat)
      requires repeatInterval > 0
      ensures this.base == base && this.repeatInterval == repeatInterval && this.maxRepeatCount == maxRepeatCount
      ensures repeatCount == 0 && currentTask == NoTask && !timerCancelled
    {
      this.base := base;
      this.repeatInterval := repeatInterval;
      this.maxRepeatCount := maxRepeatCount;
      repeatCount := 0;
      currentTask := NoTask;
      timerCancelled := false;
    }

    /** `new RepeatedAlertDecorator(alert, repeatInterval, maxRepeatCount)`. */
    static method Create(alert: Option<Alert>, repeatInterval: int, maxRepeatCount: int)
      returns (r: Result<RepeatedAlertDecorator>)
      ensures r.Ok? <==> alert.Some? && repeatInterval > 0 && maxRepeatCount >= 0
      ensures alert.None? ==> r == Err(IllegalArgument(NullAlertMessage))
      ensures alert.Some? && repeatInterval <= 0 ==> r == Err(IllegalArgument(NonPositiveIntervalMessage))
      ensures alert.Some? && repeatInterval > 0 && maxRepeatCount < 0
              ==> r == Err(IllegalArgument(NegativeMaxMessage))
      ensures r.Ok? ==> fresh(r.value) && r.value.base.decoratedAlert == alert.value
                        && r.value.repeatInterval == repeatInterval && r.value.maxRepeatCount == maxRepeatCount
                        && r.value.repeatCount == 0 && r.value.currentTask == NoTask && !r.value.timerCancelled
    {
      var wrapped := NewAlertDecorator(alert);
      if wrapped.Err? {
        return Err(wrapped.error);
      }
      if repeatInterval <= 0 {
        return Err(IllegalArgument(NonPositiveIntervalMessage));
      }
      if maxRepeatCount < 0 {
        return Err(IllegalArgument(NegativeMaxMessage));
      }
      var d := new RepeatedAlertDecorator(wrapped.value, repeatInterval, maxRepeatCount);
      return Ok(d);
    }

    function State(): RepeatState
      reads this
    {
      RepeatState(repeatCount, currentTask)
    }

    /** A task already there makes this a no-op. Otherwise a task is created; scheduling it on
        a cancelled timer throws and leaves the unscheduled task in place. */
    method StartRepeating() returns (r: Result<()>)
      modifies this`currentTask
      ensures old(currentTask) != NoTask ==> r == Ok(()) && currentTask == old(currentTask)
      ensures old(currentTask) == NoTask && !timerCancelled ==> r == Ok(()) && currentTask == Scheduled
      ensures old(currentTask) == NoTask && timerCancelled
              ==> r == Err(IllegalState(TimerCancelledMessage)) && currentTask == Unscheduled
    {
      if currentTask != NoTask {
        return Ok(());
      }
      if timerCancelled {
        currentTask := Unscheduled;
        return Err(IllegalState(TimerCancelledMessage));
      }
      currentTask := Scheduled;
      return Ok(());
    }

    /** The task body, run by the timer while the task is scheduled. */
    method Tick()
      requires currentTask == Scheduled
      modifies this`repeatCount, this`currentTask
      ensures State() == TickStep(old(State()), maxRepeatCount)
    {
      repeatCount := repeatCount + 1;
      if maxRepeatCount > 0 && repeatCount >= maxRepeatCount {
        StopRepeating();
      }
    }

    method StopRepeating()
      modifies this`currentTask
      ensures currentTask == NoTask
    {
      if currentTask != NoTask {
        currentTask := NoTask;
      }
    }

    method Cleanup()
      modifies this`currentTask, this`timerCancelled
      ensures currentTask == NoTask && timerCancelled
    {
      StopRepeating();
      timerCancelled := true;
    }
  }
}
