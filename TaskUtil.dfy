/**
 * `TaskUtil.Task`: a task whose start and end times are set once, and whose state
 * setter only ever stores a completed state. Timestamps are integers, `None` when
 * unset; the clock (`datetime.utcnow()`) is a parameter `now`.
 */
module TaskUtil {
  import opened Wrappers

  /** `TaskStateType` */
  datatype TaskStateType = Unknown | Stuck | Paused | NotStarted | InProgress | Successful | Failure | ShuttingDown
  {
    /** The enum member's `.value` */
    function Value(): int {
      match this
      case Unknown => 0
      case Stuck => 1
      case Paused => 2
      case NotStarted => 3
      case InProgress => 4
      case Successful => 5
      case Failure => 6
      case ShuttingDown => 7
    }
  }

  /** `is_task_state_in_completed_state(state)`, decided on `state.value`. */
  predicate IsCompletedValue(value: int) {
    value in [Successful.Value(), Failure.Value(), Stuck.Value()]
  }

  /** The completed states are exactly SUCCESSFUL, FAILURE and STUCK. */
  lemma CompletedStates(s: TaskStateType)
    ensures IsCompletedValue(s.Value()) <==> s == Successful || s == Failure || s == Stuck
  {
  }

  /** What may be handed to the `state` setter: something falsy, a genuine
      `TaskStateType` member, another object with an integer `.value`, or an object
      without one. */
  datatype StateArg = Falsy | Member(member: TaskStateType) | Valued(value: int) | NoValue

  class Task {
    var startTime: Option<int>
    var endTime: Option<int>
    /** The `.value` of the object last stored by the state setter. */
    var state: Option<int>

    constructor ()
      ensures startTime.None? && endTime.None? && state.None?
    {
      startTime := None;
      endTime := None;
      state := None;
    }

    /** The `start_time` setter: only a value, and only once. */
    method SetStartTime(val: Option<int>)
      modifies this
      ensures startTime == SetOnce(old(startTime), val)
      ensures endTime == old(endTime) && state == old(state)
    {
      if val.Some? && startTime.None? {
        startTime := val;
      }
    }

    /** The `end_time` setter: only a value, and only once. */
    method SetEndTime(val: Option<int>)
      modifies this
      ensures endTime == SetOnce(old(endTime), val)
      ensures startTime == old(startTime) && state == old(state)
    {
      if val.Some? && endTime.None? {
        endTime := val;
      }
    }

    /** The `state` setter. `not type(val) != TaskStateType` holds exactly for genuine
        members, so each of them raises TypeError. Any other value is stored only when
        its `.value` is a completed state, and then the end time is overwritten with
        `now`, bypassing the set-once rule; an object without `.value` raises
        AttributeError. */
    method SetState(val: StateArg, now: int) returns (r: Outcome)
      modifies this
      ensures val.Member? ==> r == Err(TypeError)
      ensures val.NoValue? ==> r == Err(AttributeError)
      ensures r.Ok? <==> val.Falsy? || val.Valued?
      ensures val.Valued? && IsCompletedValue(val.value) ==> state == Some(val.value) && endTime == Some(now)
      ensures !(val.Valued? && IsCompletedValue(val.value)) ==> state == old(state) && endTime == old(endTime)
      ensures startTime == old(startTime)
    {
      match val
      case Falsy => return Ok(());
      case Member(_) => return Err(TypeError);
      case NoValue => return Err(AttributeError);
      case Valued(v) =>
        if IsCompletedValue(v) {
          endTime := Some(now);
          state := Some(v);
        }
        return Ok(());
    }

    /** `get_total_running_time_in_sec()` in whole clock units: None without a start
        time, otherwise measured up to the end time or, while still running, `now`. */
    function RunningTime(now: int): (t: Option<int>)
      reads this
      ensures t.None? <==> startTime.None?
      ensures t.Some? && endTime.Some? ==> t.value == endTime.value - startTime.value
      ensures t.Some? && endTime.None? ==> t.value == now - startTime.value
    {
      match startTime
      case None => None
      case Some(s) => Some((if endTime.Some? then endTime.value else now) - s)
    }
  }
}
