/** What the lifecycle services act on: the engine snapshot plus the two
    local tracking tables, each table in storage order. Every service
    operation is a function from one such state to the next, paired with
    what the Java method returns or throws. */
module Tracking {
  import opened Wrappers
  import opened Engine
  import opened WorkflowInstanceEntity
  import opened TaskAssignmentEntity

  datatype State = State(
    engine: Engine,
    instances: seq<WorkflowInstance>,
    assignments: seq<TaskAssignment>)

  /** What a service method throws: an engine exception passed through, or
      the service's own runtime exception "Task not found: <taskId>". */
  datatype ServiceError =
    | EngineFailed(cause: EngineError)
    | TaskNotFound(taskId: string)

  /** The state after a call, and its return value or exception. */
  datatype Step<+T> = Step(state: State, result: Result<T, ServiceError>)

  /** Exactly one call was appended to the engine's call log. */
  predicate OneMoreCall(before: Engine, after: Engine) {
    |after.calls| == |before.calls| + 1 && after.calls[..|before.calls|] == before.calls
  }

  /** The call appended last. */
  function LastCall(e: Engine): Call
    requires |e.calls| > 0
  {
    e.calls[|e.calls| - 1]
  }
}
