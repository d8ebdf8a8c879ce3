/** The external workflow engine, seen only through the calls the services
    make on it. Its state is a snapshot of abstract tables: the latest
    process definitions, deployments, live (running) instances, historic
    (ended) instances, open tasks with their assignee and candidate users,
    and task comments. Every mutating call the services make is appended to
    a call log, so that which overload was chosen stays observable. Queries
    are reads and are not logged. How the engine executes BPMN is not
    modelled: a started instance simply becomes live, a deleted one moves to
    history together with the loss of its open tasks, a completed task
    disappears. */
module Engine {
  import opened Wrappers
  import opened JavaLang
  import opened ProcessVariables
  import opened Seqs

  /** The BPMN XML resource behind a definition, as `getProcessModel`
      yields it: no stream at all; a stream whose reading fails with an
      `IOException`, given by that exception's `toString()` text (its class
      name, then ": " and its message when it has one); a stream that reads
      but fails with an `IOException` when it is closed; or the XML text
      (already joined line by line). */
  datatype ModelResource =
    | NoResource
    | Unreadable(failure: string)
    | Unclosable(xml: string)
    | Resource(xml: string)

  datatype ProcessDefinition = ProcessDefinition(
    id: string,
    key: string,
    name: Option<string>,
    version: int,
    deploymentId: string,
    description: Option<string>,
    suspended: bool,
    model: ModelResource)

  datatype Deployment = Deployment(id: string, name: Option<string>, resourceName: Option<string>)

  datatype LiveInstance = LiveInstance(
    id: string,
    processDefinitionId: string,
    businessKey: Option<string>,
    suspended: bool,
    startTime: Timestamp,
    variables: Variables)

  datatype HistoricInstance = HistoricInstance(
    id: string,
    processDefinitionId: string,
    businessKey: Option<string>,
    startTime: Option<Timestamp>,
    endTime: Option<Timestamp>,
    durationInMillis: Option<int>,
    deleteReason: Option<string>)

  datatype Task = Task(
    id: string,
    name: Option<string>,
    description: Option<string>,
    assignee: Option<string>,
    candidateUsers: set<string>,
    processInstanceId: string,
    processDefinitionId: string,
    createTime: Timestamp,
    dueDate: Option<Timestamp>,
    priority: int,
    variables: Variables)

  datatype Comment = Comment(taskId: string, processInstanceId: string, message: string)

  /** The mutating engine calls, one constructor per Java overload. */
  datatype Call =
    | StartByKey(key: string, variables: Variables)
    | StartByKeyWithBusinessKey(key: string, businessKey: string, variables: Variables)
    | DeleteProcessInstance(id: string, reason: Option<string>)
    | CreateDeployment(name: Option<string>, resourceName: Option<string>)
    | ClaimTask(taskId: string, userId: string)
    | CreateComment(taskId: string, processInstanceId: string, message: string)
    | CompleteTask(taskId: string)
    | CompleteTaskWithVariables(taskId: string, variables: Variables)

  /** The exceptions the engine throws back at the services. */
  datatype EngineError =
    | NoDefinitionForKey(key: string)
    | SuspendedDefinition(id: string)
    | NoSuchInstance(id: string)
    | NoSuchTask(id: string)
    | AlreadyClaimed(taskId: string, assignee: string)
    | SuspendedTask(taskId: string)

  /** `definitions` holds the latest version of each definition, in the
      order the engine lists them (by name, ascending); `superseded` holds
      the older versions, which only a query by definition id still finds. */
  datatype Engine = Engine(
    definitions: seq<ProcessDefinition>,
    superseded: seq<ProcessDefinition>,
    deployments: seq<Deployment>,
    live: map<string, LiveInstance>,
    historic: map<string, HistoricInstance>,
    tasks: map<string, Task>,
    comments: seq<Comment>,
    calls: seq<Call>)

  /** Records one call; nothing else changes. */
  function Log(e: Engine, c: Call): (r: Engine)
    ensures r.calls == e.calls + [c]
    ensures r.(calls := e.calls) == e
  {
    e.(calls := e.calls + [c])
  }

  /** Index of the first definition with the given key. */
  function DefinitionWithKey(defs: seq<ProcessDefinition>, key: string): (r: Option<nat>)
    ensures r.None? <==> forall i | 0 <= i < |defs| :: defs[i].key != key
    ensures r.Some? ==> r.value < |defs| && defs[r.value].key == key
    ensures r.Some? ==> forall i | 0 <= i < r.value :: defs[i].key != key
  {
    FirstIndex(defs, (d: ProcessDefinition) => d.key == key)
  }

  /** Every deployed version, latest ones first. */
  function Versions(e: Engine): seq<ProcessDefinition> {
    e.definitions + e.superseded
  }

  /** `createProcessDefinitionQuery().processDefinitionId(id).singleResult()`:
      any version, latest or superseded, with that id. */
  function DefinitionById(e: Engine, id: string): (r: Option<ProcessDefinition>)
    ensures r.None? <==> forall i | 0 <= i < |Versions(e)| :: Versions(e)[i].id != id
    ensures r.Some? ==> r.value in Versions(e) && r.value.id == id
  {
    match FirstIndex(Versions(e), (d: ProcessDefinition) => d.id == id)
    case None => None
    case Some(i) => Some(Versions(e)[i])
  }

  /** Whether starting by `key` can succeed: a latest definition with that
      key exists and is not suspended. */
  predicate Startable(e: Engine, key: string) {
    var i := DefinitionWithKey(e.definitions, key);
    i.Some? && !e.definitions[i.value].suspended
  }

  /** Starting an instance of the latest definition with `key`: it fails
      when no such definition exists or when that definition is suspended;
      otherwise the new instance, with the engine-chosen id `newId` (fresh
      by convention), is live and running. */
  function Launch(e: Engine, key: string, businessKey: Option<string>, vars: Variables,
                  newId: string, now: Timestamp): (r: Result<(Engine, LiveInstance), EngineError>)
    ensures r.Failure? <==> !Startable(e, key)
    ensures DefinitionWithKey(e.definitions, key).None? ==> r == Failure(NoDefinitionForKey(key))
    ensures DefinitionWithKey(e.definitions, key).Some? && !Startable(e, key) ==>
      r == Failure(SuspendedDefinition(e.definitions[DefinitionWithKey(e.definitions, key).value].id))
    ensures r.Success? ==>
      var (e', inst) := r.value;
      && inst.id == newId && inst.businessKey == businessKey && inst.variables == vars
      && inst.processDefinitionId == e.definitions[DefinitionWithKey(e.definitions, key).value].id
      && !inst.suspended && inst.startTime == now
      && e' == e.(live := e.live[newId := inst])
  {
    match DefinitionWithKey(e.definitions, key)
    case None => Failure(NoDefinitionForKey(key))
    case Some(i) =>
      var d := e.definitions[i];
      if d.suspended then Failure(SuspendedDefinition(d.id))
      else
        var inst := LiveInstance(newId, d.id, businessKey, false, now, vars);
        Success((e.(live := e.live[newId := inst]), inst))
  }

  /** The open tasks that do not belong to instance `id`. */
  function TasksOutside(tasks: map<string, Task>, id: string): (r: map<string, Task>)
    ensures forall t | t in r :: t in tasks && r[t] == tasks[t] && r[t].processInstanceId != id
    ensures forall t | t in tasks && tasks[t].processInstanceId != id :: t in r
  {
    map t | t in tasks && tasks[t].processInstanceId != id :: tasks[t]
  }

  /** `deleteProcessInstance(id, reason)`: fails for an instance that is not
      running; otherwise the instance leaves the live store, is kept in
      history with the reason, and its open tasks are removed with it. */
  function Delete(e: Engine, id: string, reason: Option<string>, now: Timestamp): (r: Result<Engine, EngineError>)
    ensures r.Failure? <==> id !in e.live
    ensures r.Failure? ==> r.error == NoSuchInstance(id)
    ensures r.Success? ==>
      && r.value.live == e.live - {id}
      && id in r.value.historic && r.value.historic[id].deleteReason == reason
      && r.value.historic[id].endTime == Some(now)
      && r.value.historic[id].processDefinitionId == e.live[id].processDefinitionId
      && r.value.historic[id].businessKey == e.live[id].businessKey
      && (forall t | t in r.value.tasks :: r.value.tasks[t].processInstanceId != id)
      && (forall t | t in e.tasks && e.tasks[t].processInstanceId != id ::
            t in r.value.tasks && r.value.tasks[t] == e.tasks[t])
      && r.value.tasks.Keys <= e.tasks.Keys
      && r.value == e.(live := r.value.live, historic := r.value.historic, tasks := r.value.tasks)
  {
    if id !in e.live then Failure(NoSuchInstance(id))
    else
      var inst := e.live[id];
      var h := HistoricInstance(id, inst.processDefinitionId, inst.businessKey,
                                Some(inst.startTime), Some(now), Some(now - inst.startTime), reason);
      Success(e.(live := e.live - {id}, historic := e.historic[id := h], tasks := TasksOutside(e.tasks, id)))
  }

  /** A task is suspended while its process instance is live and
      suspended; the engine refuses to claim, comment on or complete it
      (a `SuspendedEntityInteractionException`). */
  predicate TaskSuspended(e: Engine, taskId: string)
    requires taskId in e.tasks
  {
    var p := e.tasks[taskId].processInstanceId;
    p in e.live && e.live[p].suspended
  }

  /** `claim(taskId, userId)`: fails for an unknown task, for a suspended
      task and for a task already assigned to someone else; otherwise
      `userId` becomes its assignee. */
  function Claim(e: Engine, taskId: string, userId: string): (r: Result<Engine, EngineError>)
    ensures r.Failure? <==>
      || taskId !in e.tasks
      || TaskSuspended(e, taskId)
      || (e.tasks[taskId].assignee.Some? && e.tasks[taskId].assignee.value != userId)
    ensures taskId in e.tasks && TaskSuspended(e, taskId) ==> r == Failure(SuspendedTask(taskId))
    ensures r.Success? ==> r.value == e.(tasks := e.tasks[taskId := e.tasks[taskId].(assignee := Some(userId))])
  {
    if taskId !in e.tasks then Failure(NoSuchTask(taskId))
    else if TaskSuspended(e, taskId) then Failure(SuspendedTask(taskId))
    else
      var t := e.tasks[taskId];
      if t.assignee.Some? && t.assignee.value != userId then Failure(AlreadyClaimed(taskId, t.assignee.value))
      else Success(e.(tasks := e.tasks[taskId := t.(assignee := Some(userId))]))
  }

  /** `createComment(taskId, processInstanceId, message)`: refused for a
      suspended task; otherwise the comment is recorded. */
  function AddComment(e: Engine, taskId: string, processInstanceId: string, message: string): (r: Result<Engine, EngineError>)
    ensures r.Failure? <==> taskId in e.tasks && TaskSuspended(e, taskId)
    ensures r.Failure? ==> r.error == SuspendedTask(taskId)
    ensures r.Success? ==> r.value == e.(comments := e.comments + [Comment(taskId, processInstanceId, message)])
  {
    if taskId in e.tasks && TaskSuspended(e, taskId) then Failure(SuspendedTask(taskId))
    else Success(e.(comments := e.comments + [Comment(taskId, processInstanceId, message)]))
  }

  /** `complete(taskId[, variables])`: fails for an unknown or a suspended
      task; otherwise the task is no longer open. */
  function Complete(e: Engine, taskId: string): (r: Result<Engine, EngineError>)
    ensures r.Failure? <==> taskId !in e.tasks || TaskSuspended(e, taskId)
    ensures r.Failure? && taskId in e.tasks ==> r.error == SuspendedTask(taskId)
    ensures r.Success? ==> taskId !in r.value.tasks && r.value == e.(tasks := e.tasks - {taskId})
  {
    if taskId !in e.tasks then Failure(NoSuchTask(taskId))
    else if TaskSuspended(e, taskId) then Failure(SuspendedTask(taskId))
    else Success(e.(tasks := e.tasks - {taskId}))
  }
}
