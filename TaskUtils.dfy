/**
 * `TaskUtils`: task states and their classifiers, a task whose state setter stamps
 * set-once start and end times, API calls whose state follows their response, and the
 * aggregate state of a collection of calls. The clock is a parameter `now`; a
 * response is represented by its HTTP status, and a session by an identifier.
 */
module TaskUtils {
  import opened Wrappers

  /** `TaskStateType` */
  datatype TaskStateType =
    NotStarted | InProgress | Stuck | Failed | Success | Unknown | Waiting | PartialFailureOrSuccess
  {
    /** The enum member's `.value` */
    function Value(): int {
      match this
      case NotStarted => 0
      case InProgress => 1
      case Stuck => 2
      case Failed => 3
      case Success => 4
      case Unknown => 5
      case Waiting => 6
      case PartialFailureOrSuccess => 7
    }
  }

  /** `is_task_in_finished_state` */
  predicate IsFinished(s: TaskStateType) {
    s.Value() in [Stuck.Value(), Failed.Value(), Success.Value()]
  }

  /** `is_task_in_progress_state` */
  predicate IsInProgress(s: TaskStateType) {
    s.Value() in [InProgress.Value()]
  }

  /** The `not_started` test of `ApiCallCollection.get_state` */
  predicate IsNotStarted(s: TaskStateType) {
    s.Value() == NotStarted.Value()
  }

  /** `is_task_in_success_state` */
  predicate IsSuccess(s: TaskStateType) {
    s.Value() == Success.Value()
  }

  /** `is_task_in_failed_state` */
  predicate IsFailed(s: TaskStateType) {
    s.Value() in [Failed.Value(), Stuck.Value(), PartialFailureOrSuccess.Value()]
  }

  /** The four state classes, member by member. */
  lemma StateClasses(s: TaskStateType)
    ensures IsFinished(s) <==> s == Stuck || s == Failed || s == Success
    ensures IsFailed(s) <==> s == Failed || s == Stuck || s == PartialFailureOrSuccess
    ensures IsSuccess(s) <==> s == Success
    ensures IsInProgress(s) <==> s == InProgress
    ensures IsNotStarted(s) <==> s == NotStarted
  {
  }

  /** The base `Task`'s stored state and its set-once times. */
  class Task {
    var state: Option<TaskStateType>
    var startTime: Option<int>
    var endTime: Option<int>

    constructor ()
      ensures state.None? && startTime.None? && endTime.None?
    {
      state := None;
      startTime := None;
      endTime := None;
    }

    /** The `start_time` setter */
    method SetStartTime(val: Option<int>)
      modifies this
      ensures startTime == SetOnce(old(startTime), val)
      ensures state == old(state) && endTime == old(endTime)
    {
      if val.Some? && startTime.None? {
        startTime := val;
      }
    }

    /** The `end_time` setter */
    method SetEndTime(val: Option<int>)
      modifies this
      ensures endTime == SetOnce(old(endTime), val)
      ensures state == old(state) && startTime == old(startTime)
    {
      if val.Some? && endTime.None? {
        endTime := val;
      }
    }

    /** The `state` setter: stores the state, stamps the start time on IN_PROGRESS and the
        end time on a finished state, each through its set-once setter. */
    method SetState(val: TaskStateType, now: int)
      modifies this
      ensures state == Some(val)
      ensures startTime == if IsInProgress(val) then SetOnce(old(startTime), Some(now)) else old(startTime)
      ensures endTime == if IsFinished(val) then SetOnce(old(endTime), Some(now)) else old(endTime)
    {
      state := Some(val);
      if IsInProgress(val) {
        SetStartTime(Some(now));
      }
      if IsFinished(val) {
        SetEndTime(Some(now));
      }
    }
  }

  /** `ApiCall.get_state()` for the response's status: IN_PROGRESS without a response,
      SUCCESS for 200 or 201, FAILED otherwise. */
  function ApiCallState(response: Option<int>): (s: TaskStateType)
    ensures s == InProgress <==> response.None?
    ensures s == Success <==> response.Some? && response.value in {200, 201}
    ensures s == Failed <==> response.Some? && response.value !in {200, 201}
  {
    match response
    case None => InProgress
    case Some(status) => if status in [200, 201] then Success else Failed
  }

  /** An `ApiCall`: the inherited task fields, its response and its session. */
  class ApiCall {
    const task: Task
    var response: Option<int>
    var session: Option<int>

    constructor (session: Option<int>)
      ensures fresh(task) && task.state.None? && task.startTime.None? && task.endTime.None?
      ensures response.None? && this.session == session
    {
      task := new Task();
      response := None;
      this.session := session;
    }

    /** The `state` property: always re-derived from the response. */
    function State(): TaskStateType
      reads this
    {
      ApiCallState(response)
    }

    /** The `response` setter: stores the response and passes the derived state to the
        task's state setter. */
    method SetResponse(val: Option<int>, now: int)
      modifies this, task
      ensures response == val && session == old(session)
      ensures task.state == Some(ApiCallState(val))
      ensures task.startTime == if val.None? then SetOnce(old(task.startTime), Some(now)) else old(task.startTime)
      ensures task.endTime == if val.Some? then SetOnce(old(task.endTime), Some(now)) else old(task.endTime)
    {
      response := val;
      task.SetState(ApiCallState(val), now);
    }
  }

  /** `ApiCallCollection.get_state()` over the calls' states. Each list comprehension
      of the source is tested for emptiness, and `len(successes) == len(calls)` says
      every call is a success. None for an empty collection, and for the combinations
      none of the branches covers. */
  function CollectionState(states: seq<TaskStateType>): Option<TaskStateType> {
    var notStarted := exists i :: 0 <= i < |states| && IsNotStarted(states[i]);
    var inProgress := exists i :: 0 <= i < |states| && IsInProgress(states[i]);
    var finished := exists i :: 0 <= i < |states| && IsFinished(states[i]);
    var failures := exists i :: 0 <= i < |states| && IsFailed(states[i]);
    var allSuccesses := forall i :: 0 <= i < |states| ==> IsSuccess(states[i]);
    if states == [] then None
    else if inProgress then Some(InProgress)
    else if notStarted && !finished then Some(NotStarted)
    else if finished && !notStarted then
      if failures then
        (if exists i :: 0 <= i < |states| && IsSuccess(states[i]) then Some(PartialFailureOrSuccess) else Some(Failed))
      else if allSuccesses then Some(Success)
      else Some(Unknown)
    else None
  }

  /** The branches of the aggregate, stated on the members' states. */
  lemma CollectionStateCases(states: seq<TaskStateType>)
    ensures states == [] ==> CollectionState(states).None?
    ensures (exists i :: 0 <= i < |states| && states[i] == InProgress) ==> CollectionState(states) == Some(InProgress)
    ensures states != [] && (forall i :: 0 <= i < |states| ==> states[i] == Success) ==> CollectionState(states) == Some(Success)
    ensures (forall i :: 0 <= i < |states| ==> states[i] != InProgress)
         && (exists i :: 0 <= i < |states| && states[i] == NotStarted)
         && (exists i :: 0 <= i < |states| && IsFinished(states[i]))
         ==> CollectionState(states).None?
    ensures (forall i :: 0 <= i < |states| ==> states[i] != InProgress && !IsFinished(states[i]))
         && (exists i :: 0 <= i < |states| && states[i] == NotStarted)
         ==> CollectionState(states) == Some(NotStarted)
    ensures (forall i :: 0 <= i < |states| ==> states[i] != NotStarted && states[i] != InProgress && !IsFailed(states[i]))
         && (exists i :: 0 <= i < |states| && IsFinished(states[i]))
         && (exists i :: 0 <= i < |states| && states[i] != Success)
         ==> CollectionState(states) == Some(Unknown)
    ensures states != [] && (forall i :: 0 <= i < |states| ==> states[i] != NotStarted && states[i] != InProgress && !IsFinished(states[i]))
         ==> CollectionState(states).None?
  {
    forall s: TaskStateType {
      StateClasses(s);
    }
    if i :| 0 <= i < |states| && states[i] == InProgress {
      assert IsInProgress(states[i]);
    }
    if i :| 0 <= i < |states| && states[i] == NotStarted {
      assert IsNotStarted(states[i]);
    }
    if states != [] && forall i :: 0 <= i < |states| ==> states[i] == Success {
      assert IsFinished(states[0]);
    }
  }

  /** The states of a collection of API calls, from their responses. */
  function ApiCallStates(responses: seq<Option<int>>): (states: seq<TaskStateType>)
    ensures |states| == |responses|
    ensures forall i :: 0 <= i < |responses| ==> states[i] == ApiCallState(responses[i])
  {
    if responses == [] then []
    else ApiCallStates(responses[..|responses| - 1]) + [ApiCallState(responses[|responses| - 1])]
  }

  /** A call is never NOT_STARTED, so a non-empty collection of calls always has a state:
      IN_PROGRESS while some response is missing, else SUCCESS when every status is 200
      or 201, FAILED when none is, and PARTIAL_FAILURE_OR_SUCCESS for a mix. */
  lemma ApiCallCollectionState(responses: seq<Option<int>>)
    requires responses != []
    ensures var r := CollectionState(ApiCallStates(responses));
      && (r == Some(InProgress) <==> exists i :: 0 <= i < |responses| && responses[i].None?)
      && (r == Some(Success) <==> forall i :: 0 <= i < |responses| ==> responses[i].Some? && responses[i].value in {200, 201})
      && (r == Some(Failed) <==> forall i :: 0 <= i < |responses| ==> responses[i].Some? && responses[i].value !in {200, 201})
      && (r.Some? && r.value in {InProgress, Success, Failed, PartialFailureOrSuccess})
  {
    if exists i :: 0 <= i < |responses| && responses[i].None? {
      var i :| 0 <= i < |responses| && responses[i].None?;
      CallsInProgress(responses, i);
    } else if forall i :: 0 <= i < |responses| ==> responses[i].value in {200, 201} {
      CallsAllSucceeded(responses);
    } else if forall i :: 0 <= i < |responses| ==> responses[i].value !in {200, 201} {
      CallsAllFailed(responses);
    } else {
      var j :| 0 <= j < |responses| && responses[j].value !in {200, 201};
      var k :| 0 <= k < |responses| && responses[k].value in {200, 201};
      CallsMixed(responses, j, k);
    }
  }

  lemma CallsInProgress(responses: seq<Option<int>>, i: int)
    requires 0 <= i < |responses| && responses[i].None?
    ensures CollectionState(ApiCallStates(responses)) == Some(InProgress)
  {
    assert IsInProgress(ApiCallStates(responses)[i]);
  }

  lemma CallsAllSucceeded(responses: seq<Option<int>>)
    requires responses != []
    requires forall i :: 0 <= i < |responses| ==> responses[i].Some? && responses[i].value in {200, 201}
    ensures CollectionState(ApiCallStates(responses)) == Some(Success)
  {
    var states := ApiCallStates(responses);
    assert forall i :: 0 <= i < |states| ==> states[i] == Success;
    CollectionStateCases(states);
  }

  lemma CallsAllFailed(responses: seq<Option<int>>)
    requires responses != []
    requires forall i :: 0 <= i < |responses| ==> responses[i].Some? && responses[i].value !in {200, 201}
    ensures CollectionState(ApiCallStates(responses)) == Some(Failed)
  {
    var states := ApiCallStates(responses);
    assert forall i :: 0 <= i < |states| ==> states[i] == Failed;
    CollectionStateAllFailed(states);
  }

  lemma CollectionStateAllFailed(states: seq<TaskStateType>)
    requires states != [] && forall i :: 0 <= i < |states| ==> states[i] == Failed
    ensures CollectionState(states) == Some(Failed)
  {
    assert IsFinished(states[0]) && IsFailed(states[0]);
  }

  lemma CallsMixed(responses: seq<Option<int>>, j: int, k: int)
    requires forall i :: 0 <= i < |responses| ==> responses[i].Some?
    requires 0 <= j < |responses| && responses[j].value !in {200, 201}
    requires 0 <= k < |responses| && responses[k].value in {200, 201}
    ensures CollectionState(ApiCallStates(responses)) == Some(PartialFailureOrSuccess)
  {
    var states := ApiCallStates(responses);
    MixedStates(states, j, k);
  }

  /** Finished calls, some failed and some succeeded, make a partial failure. */
  lemma MixedStates(states: seq<TaskStateType>, j: int, k: int)
    requires forall i :: 0 <= i < |states| ==> states[i] == Success || states[i] == Failed
    requires 0 <= j < |states| && states[j] == Failed
    requires 0 <= k < |states| && states[k] == Success
    ensures CollectionState(states) == Some(PartialFailureOrSuccess)
  {
    forall i | 0 <= i < |states|
      ensures !IsInProgress(states[i]) && !IsNotStarted(states[i])
    {
      assert states[i] == Success || states[i] == Failed;
    }
    assert IsFailed(states[j]) && IsSuccess(states[k]) && IsFinished(states[k]);
  }

  /** `add_session_to_api_calls(api_calls, session)`: None for an empty list or a
      missing session; otherwise every call gets the same session and the list is
      returned. */
  method AddSessionToApiCalls(apiCalls: seq<ApiCall>, session: Option<int>) returns (r: Option<seq<ApiCall>>)
    modifies set c | c in apiCalls
    ensures r.None? <==> apiCalls == [] || session.None?
    ensures r.Some? ==> r.value == apiCalls
    ensures r.Some? ==> forall c :: c in apiCalls ==> c.session == session
    ensures r.None? ==> forall c :: c in apiCalls ==> c.session == old(c.session)
    ensures forall c :: c in apiCalls ==> c.response == old(c.response)
  {
    if apiCalls == [] || session.None? {
      return None;
    }
    var i := 0;
    while i < |apiCalls|
      invariant 0 <= i <= |apiCalls|
      invariant forall j :: 0 <= j < i ==> apiCalls[j].session == session
      invariant forall c :: c in apiCalls ==> c.response == old(c.response)
    {
      apiCalls[i].session := session;
      i := i + 1;
    }
    return Some(apiCalls);
  }
}
