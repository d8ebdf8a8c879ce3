/** `ProcessService`: deploys definitions, starts instances and shadows
    each start in the `workflow_instances` table, resolves an instance's
    status from the live store first and history second, lists
    definitions and active instances, and terminates instances while
    marking a shadow row as terminated. */
module ProcessService {
  import opened Wrappers
  import opened JavaLang
  import opened ProcessVariables
  import opened Engine
  import opened WorkflowInstanceEntity
  import opened Tracking
  import opened Seqs

  // ---------------------------------------------------------------------
  // Deployment

  /** `deployProcess`: the deployment is named `deploymentName`, or after
      the uploaded file when no name is given; the file is added under its
      original name. Returns the engine-chosen deployment id. The process
      definitions the engine parses out of the file are not modelled. */
  function DeployProcess(e: Engine, originalFilename: Option<string>, deploymentName: Option<string>,
                         newDeploymentId: string): (r: (Engine, string))
    ensures r.1 == newDeploymentId
    ensures deploymentName.Some? ==> r.0.calls == e.calls + [CreateDeployment(deploymentName, originalFilename)]
    ensures deploymentName.None? ==> r.0.calls == e.calls + [CreateDeployment(originalFilename, originalFilename)]
    ensures |r.0.deployments| == |e.deployments| + 1 && r.0.deployments[..|e.deployments|] == e.deployments
    ensures r.0.deployments[|e.deployments|].id == newDeploymentId
    ensures r.0.deployments[|e.deployments|].name == (if deploymentName.Some? then deploymentName else originalFilename)
    ensures r.0.live == e.live && r.0.historic == e.historic && r.0.tasks == e.tasks
  {
    var name := if deploymentName.Some? then deploymentName else originalFilename;
    var e1 := Log(e, CreateDeployment(name, originalFilename));
    (e1.(deployments := e1.deployments + [Deployment(newDeploymentId, name, originalFilename)]), newDeploymentId)
  }

  // ---------------------------------------------------------------------
  // Start

  /** `getCurrentUser`: the authenticated principal's name; any failure to
      obtain it (no context, no authentication) yields "system". The
      principal is `None` exactly when the lookup fails. */
  function CurrentUser(principal: Option<string>): (r: string)
    ensures principal.Some? ==> r == principal.value
    ensures principal.None? ==> r == "system"
  {
    principal.GetOr("system")
  }

  /** The engine call `startProcess` makes for an input shape. */
  function StartCall(processKey: string, businessKey: Option<string>, vars: Variables): Call {
    if HasText(businessKey) then StartByKeyWithBusinessKey(processKey, businessKey.value, vars)
    else StartByKey(processKey, vars)
  }

  /** The shadow row `startProcess` saves, after `onCreate`. */
  function StartRow(processKey: string, businessKey: Option<string>, principal: Option<string>,
                    now: Timestamp): WorkflowInstance
  {
    OnCreate(WorkflowInstance(processKey, businessKey, ACTIVE, CurrentUser(principal), Some(now), None), now)
  }

  /** `startProcess`. Exactly one start call reaches the engine: the
      overload with a business key when the key has text, the one without
      otherwise, and always with a non-null variable map. When the engine
      starts the instance, exactly one ACTIVE shadow row is appended that
      keeps the business key exactly as given (even when blank) and names
      the resolved user; the engine's instance is returned. When the engine
      refuses, no row is written. */
  function StartProcess(s: State, processKey: string, businessKey: Option<string>,
                        variables: Option<Variables>, principal: Option<string>,
                        now: Timestamp, newId: string): (r: Step<LiveInstance>)
    ensures OneMoreCall(s.engine, r.state.engine)
    ensures LastCall(r.state.engine).StartByKeyWithBusinessKey? <==> HasText(businessKey)
    ensures LastCall(r.state.engine).StartByKey? <==> !HasText(businessKey)
    ensures LastCall(r.state.engine).StartByKeyWithBusinessKey? ==>
      LastCall(r.state.engine) == StartByKeyWithBusinessKey(processKey, businessKey.value, variables.GetOr(map[]))
    ensures LastCall(r.state.engine).StartByKey? ==>
      LastCall(r.state.engine) == StartByKey(processKey, variables.GetOr(map[]))
    ensures variables.None? ==> LastCall(r.state.engine).variables == map[]
    ensures r.result.Failure? <==> !Startable(s.engine, processKey)
    ensures r.result.Failure? ==> r.state == s.(engine := r.state.engine) && r.state.engine.live == s.engine.live
    ensures r.result.Success? ==>
      && r.result.value.id == newId
      && r.result.value.processDefinitionId
         == s.engine.definitions[DefinitionWithKey(s.engine.definitions, processKey).value].id
      && r.state.engine.live == s.engine.live[newId := r.result.value]
      && |r.state.instances| == |s.instances| + 1
      && r.state.instances[..|s.instances|] == s.instances
      && var row := r.state.instances[|s.instances|];
         && row.status == ACTIVE
         && row.processDefinitionKey == processKey
         && row.businessKey == businessKey
         && row.startedBy == (if principal.Some? then principal.value else "system")
         && row.startedAt == Some(now)
         && row.completedAt.None?
    ensures r.state.assignments == s.assignments
  {
    var vars := variables.GetOr(map[]);
    var e1 := Log(s.engine, StartCall(processKey, businessKey, vars));
    var instanceKey := if HasText(businessKey) then businessKey else None;
    match Launch(e1, processKey, instanceKey, vars, newId, now)
    case Failure(err) => Step(s.(engine := e1), Failure(EngineFailed(err)))
    case Success((e2, inst)) =>
      Step(s.(engine := e2, instances := s.instances + [StartRow(processKey, businessKey, principal, now)]),
           Success(inst))
  }

  // ---------------------------------------------------------------------
  // Status

  /** The status view of one instance: a running instance with its
      suspension flag and live variables, or an ended one with its
      historic timings and delete reason. */
  datatype ProcessStatus =
    | Running(processInstanceId: string, processDefinitionId: string, businessKey: Option<string>,
              isSuspended: bool, variables: Variables)
    | Ended(processInstanceId: string, processDefinitionId: string, businessKey: Option<string>,
            startTime: Option<Timestamp>, endTime: Option<Timestamp>, durationInMillis: Option<int>,
            deleteReason: Option<string>)
  {
    predicate IsEnded() {
      Ended?
    }
  }

  /** `getProcessStatus`: the live store is asked first and, when it knows
      the instance, answers alone; history is asked only when the live
      store has nothing; null when neither knows the id. */
  function GetProcessStatus(e: Engine, id: string): (r: Option<ProcessStatus>)
    ensures r.None? <==> id !in e.live && id !in e.historic
    ensures id in e.live ==>
      && r.Some? && !r.value.IsEnded()
      && r.value.processInstanceId == e.live[id].id
      && r.value.processDefinitionId == e.live[id].processDefinitionId
      && r.value.isSuspended == e.live[id].suspended
      && r.value.variables == e.live[id].variables
      && r.value.businessKey == e.live[id].businessKey
    ensures id !in e.live && id in e.historic ==>
      && r.Some? && r.value.IsEnded()
      && var h := e.historic[id];
         r.value == Ended(h.id, h.processDefinitionId, h.businessKey, h.startTime, h.endTime,
                          h.durationInMillis, h.deleteReason)
  {
    if id in e.live then
      var inst := e.live[id];
      Some(Running(inst.id, inst.processDefinitionId, inst.businessKey, inst.suspended, inst.variables))
    else if id in e.historic then
      var h := e.historic[id];
      Some(Ended(h.id, h.processDefinitionId, h.businessKey, h.startTime, h.endTime,
                 h.durationInMillis, h.deleteReason))
    else
      None
  }

  /** Live always wins: while the live store knows an instance, whatever
      history holds makes no difference to the status. */
  lemma LiveWins(e: Engine, id: string, history: map<string, HistoricInstance>)
    requires id in e.live
    ensures GetProcessStatus(e.(historic := history), id) == GetProcessStatus(e, id)
    ensures !GetProcessStatus(e, id).value.IsEnded()
  {
  }

  // ---------------------------------------------------------------------
  // Listing

  /** Live instances of a definition that are not suspended. */
  function ActiveIds(e: Engine, definitionId: string): set<string> {
    set id | id in e.live && e.live[id].processDefinitionId == definitionId && !e.live[id].suspended
  }

  datatype DefinitionSummary = DefinitionSummary(
    id: string, key: string, name: Option<string>, version: int, deploymentId: string,
    description: Option<string>, isSuspended: bool, activeInstanceCount: nat)

  /** `getAllProcessDefinitions`: one summary per latest definition, in
      the engine's order, each with its count of active instances. */
  function GetAllProcessDefinitions(e: Engine): (r: seq<DefinitionSummary>)
    ensures |r| == |e.definitions|
    ensures forall i | 0 <= i < |r| ::
      && r[i].id == e.definitions[i].id && r[i].key == e.definitions[i].key
      && r[i].name == e.definitions[i].name && r[i].version == e.definitions[i].version
      && r[i].deploymentId == e.definitions[i].deploymentId
      && r[i].description == e.definitions[i].description
      && r[i].isSuspended == e.definitions[i].suspended
      && r[i].activeInstanceCount == |ActiveIds(e, e.definitions[i].id)|
  {
    seq(|e.definitions|, i requires 0 <= i < |e.definitions| =>
      var d := e.definitions[i];
      DefinitionSummary(d.id, d.key, d.name, d.version, d.deploymentId, d.description, d.suspended,
                        |ActiveIds(e, d.id)|))
  }

  datatype InstanceSummary = InstanceSummary(
    id: string, processDefinitionId: string, businessKey: Option<string>, isSuspended: bool,
    variables: Variables)

  /** The summary `getActiveInstances` reports for one live instance. */
  function Summarize(inst: LiveInstance): InstanceSummary {
    InstanceSummary(inst.id, inst.processDefinitionId, inst.businessKey, inst.suspended, inst.variables)
  }

  /** `getActiveInstances`: exactly the active live instances of the
      definition, each with its live variables. The engine's list order is
      unspecified, so the result is a set. */
  function GetActiveInstances(e: Engine, definitionId: string): (r: set<InstanceSummary>)
    ensures forall s | s in r :: exists id | id in ActiveIds(e, definitionId) :: s == Summarize(e.live[id])
    ensures forall id | id in ActiveIds(e, definitionId) :: Summarize(e.live[id]) in r
  {
    set id | id in ActiveIds(e, definitionId) :: Summarize(e.live[id])
  }

  /** The live store is keyed by instance id, as the engine keeps it. */
  predicate LiveKeyed(e: Engine) {
    forall id | id in e.live :: e.live[id].id == id
  }

  /** Distinct live instances give distinct summaries, so there are as many
      summaries as instances. */
  lemma {:induction false} SummaryCount(e: Engine, ids: set<string>)
    requires LiveKeyed(e)
    requires forall id | id in ids :: id in e.live
    ensures |(set id | id in ids :: Summarize(e.live[id]))| == |ids|
    decreases ids
  {
    if ids != {} {
      var x :| x in ids;
      var rest := ids - {x};
      SummaryCount(e, rest);
      var all := set id | id in ids :: Summarize(e.live[id]);
      var others := set id | id in rest :: Summarize(e.live[id]);
      assert all == others + {Summarize(e.live[x])};
      assert Summarize(e.live[x]) !in others;
    }
  }

  /** The listing of a definition's active instances is exactly as long as
      the active count the definitions overview reports for it. */
  lemma ActiveListMatchesCount(e: Engine, i: nat)
    requires LiveKeyed(e)
    requires i < |e.definitions|
    ensures |GetActiveInstances(e, e.definitions[i].id)| == GetAllProcessDefinitions(e)[i].activeInstanceCount
  {
    SummaryCount(e, ActiveIds(e, e.definitions[i].id));
  }

  /** Deploying starts, stops and changes no instance and no task: every
      status query, every active-instance listing and the task table read
      the same afterwards, and the live store stays keyed by id. */
  lemma DeployKeepsInstances(e: Engine, originalFilename: Option<string>, deploymentName: Option<string>,
                             newDeploymentId: string, id: string, definitionId: string)
    ensures var e' := DeployProcess(e, originalFilename, deploymentName, newDeploymentId).0;
      && GetProcessStatus(e', id) == GetProcessStatus(e, id)
      && GetActiveInstances(e', definitionId) == GetActiveInstances(e, definitionId)
      && e'.tasks == e.tasks
      && (LiveKeyed(e) ==> LiveKeyed(e'))
  {
    var e' := DeployProcess(e, originalFilename, deploymentName, newDeploymentId).0;
    assert ActiveIds(e', definitionId) == ActiveIds(e, definitionId);
  }

  /** Starting an instance of a definition adds one to that definition's
      active count, provided the engine's new id is fresh. The engine
      model stops a start at its first wait state. */
  lemma StartCountsAsActive(s: State, processKey: string, businessKey: Option<string>,
                            variables: Option<Variables>, principal: Option<string>,
                            now: Timestamp, newId: string)
    requires newId !in s.engine.live
    requires StartProcess(s, processKey, businessKey, variables, principal, now, newId).result.Success?
    ensures var e' := StartProcess(s, processKey, businessKey, variables, principal, now, newId).state.engine;
            var d := e'.live[newId].processDefinitionId;
            |ActiveIds(e', d)| == |ActiveIds(s.engine, d)| + 1
  {
    var r := StartProcess(s, processKey, businessKey, variables, principal, now, newId);
    var e' := r.state.engine;
    var d := e'.live[newId].processDefinitionId;
    assert !e'.live[newId].suspended;
    assert ActiveIds(e', d) == ActiveIds(s.engine, d) + {newId};
    assert newId !in ActiveIds(s.engine, d);
  }

  // ---------------------------------------------------------------------
  // Terminate

  /** Index of the first row whose business key is non-null. */
  function FirstKeyed(rows: seq<WorkflowInstance>): (r: Option<nat>)
    ensures r.None? <==> forall i | 0 <= i < |rows| :: rows[i].businessKey.None?
    ensures r.Some? ==> r.value < |rows| && rows[r.value].businessKey.Some?
    ensures r.Some? ==> forall i | 0 <= i < r.value :: rows[i].businessKey.None?
  {
    FirstIndex(rows, (w: WorkflowInstance) => w.businessKey.Some?)
  }

  /** The row after `setStatus(TERMINATED)`, `setCompletedAt(now)` and
      `save`. */
  function Terminated(row: WorkflowInstance, now: Timestamp): WorkflowInstance {
    ApplyUpdate(row, row.(status := TERMINATED, completedAt := Some(now)))
  }

  /** The reconciliation `terminateProcess` performs on the table, as
      written: the first row carrying any business key is terminated,
      whichever instance it shadows; all other rows are kept. */
  function TerminateFirstKeyed(rows: seq<WorkflowInstance>, now: Timestamp): (r: seq<WorkflowInstance>)
    ensures |r| == |rows|
    ensures FirstKeyed(rows).None? ==> r == rows
    ensures FirstKeyed(rows).Some? ==>
      var k := FirstKeyed(rows).value;
      && r[k].status == TERMINATED && r[k].completedAt == Some(now)
      && r[k] == rows[k].(status := TERMINATED, completedAt := Some(now))
      && forall i | 0 <= i < |rows| && i != k :: r[i] == rows[i]
  {
    match FirstKeyed(rows)
    case None => rows
    case Some(k) => rows[k := Terminated(rows[k], now)]
  }

  /** `terminateProcess`: the delete call is made unconditionally first;
      when the engine refuses it nothing else happens; otherwise the
      shadow table is reconciled by `TerminateFirstKeyed`. */
  function TerminateProcess(s: State, id: string, reason: Option<string>, now: Timestamp): (r: Step<()>)
    ensures OneMoreCall(s.engine, r.state.engine)
    ensures LastCall(r.state.engine) == DeleteProcessInstance(id, reason)
    ensures r.result.Failure? <==> id !in s.engine.live
    ensures r.result.Failure? ==> r.state == s.(engine := Log(s.engine, DeleteProcessInstance(id, reason)))
    ensures r.result.Success? ==> r.state.instances == TerminateFirstKeyed(s.instances, now)
    ensures r.result.Success? ==>
      forall t | t in r.state.engine.tasks :: r.state.engine.tasks[t].processInstanceId != id
    ensures r.state.assignments == s.assignments
  {
    var e1 := Log(s.engine, DeleteProcessInstance(id, reason));
    match Delete(e1, id, reason, now)
    case Failure(err) => Step(s.(engine := e1), Failure(EngineFailed(err)))
    case Success(e2) => Step(s.(engine := e2, instances := TerminateFirstKeyed(s.instances, now)), Success(()))
  }

  // ---------------------------------------------------------------------
  // Invariants and cross-operation properties

  /** Starting keeps every shadow row well formed. */
  lemma StartKeepsRowsWellFormed(s: State, processKey: string, businessKey: Option<string>,
                                 variables: Option<Variables>, principal: Option<string>,
                                 now: Timestamp, newId: string)
    requires AllWellFormed(s.instances)
    ensures AllWellFormed(StartProcess(s, processKey, businessKey, variables, principal, now, newId).state.instances)
  {
    var r := StartProcess(s, processKey, businessKey, variables, principal, now, newId);
    if r.result.Success? {
      var rows := r.state.instances;
      forall i | 0 <= i < |rows|
        ensures WellFormed(rows[i])
      {
        if i < |s.instances| {
          assert rows[i] == rows[..|s.instances|][i];
        }
      }
    }
  }

  /** Terminating keeps every shadow row well formed: the one row it
      touches becomes terminal and gains its completion instant together. */
  lemma TerminateKeepsRowsWellFormed(s: State, id: string, reason: Option<string>, now: Timestamp)
    requires AllWellFormed(s.instances)
    ensures AllWellFormed(TerminateProcess(s, id, reason, now).state.instances)
  {
  }

  /** Starting and terminating keep the live store keyed by instance id. */
  lemma StartKeepsLiveKeyed(s: State, processKey: string, businessKey: Option<string>,
                            variables: Option<Variables>, principal: Option<string>,
                            now: Timestamp, newId: string)
    requires LiveKeyed(s.engine)
    ensures LiveKeyed(StartProcess(s, processKey, businessKey, variables, principal, now, newId).state.engine)
  {
  }

  lemma TerminateKeepsLiveKeyed(s: State, id: string, reason: Option<string>, now: Timestamp)
    requires LiveKeyed(s.engine)
    ensures LiveKeyed(TerminateProcess(s, id, reason, now).state.engine)
  {
  }

  /** Right after a successful start, the new instance reports as running,
      unsuspended, with exactly the variables it was started with (a start
      stops at its first wait state in the engine model). */
  lemma StartedInstanceIsRunning(s: State, processKey: string, businessKey: Option<string>,
                                 variables: Option<Variables>, principal: Option<string>,
                                 now: Timestamp, newId: string)
    requires StartProcess(s, processKey, businessKey, variables, principal, now, newId).result.Success?
    ensures var st := GetProcessStatus(StartProcess(s, processKey, businessKey, variables, principal, now, newId).state.engine, newId);
            && st.Some? && !st.value.IsEnded() && !st.value.isSuspended
            && st.value.variables == variables.GetOr(map[])
  {
  }

  /** Right after a successful terminate, the instance reports as ended,
      carrying the reason it was terminated with. */
  lemma TerminatedInstanceIsEnded(s: State, id: string, reason: Option<string>, now: Timestamp)
    requires TerminateProcess(s, id, reason, now).result.Success?
    ensures var st := GetProcessStatus(TerminateProcess(s, id, reason, now).state.engine, id);
            st.Some? && st.value.IsEnded() && st.value.deleteReason == reason
  {
  }

  // ---------------------------------------------------------------------
  // Scenarios

  /** A definition of the approval process, used by the scenarios below. */
  function ApprovalDefinition(): ProcessDefinition {
    ProcessDefinition("approval:1:def-1", "approval-process", Some("Approval Process"), 1, "deploy-1",
                      None, false, NoResource)
  }

  function EmptyEngine(): Engine {
    Engine([ApprovalDefinition()], [], [], map[], map[], map[], [], [])
  }

  /** Start with a business key, look the instance up while it runs, then
      terminate it: the shadow row is created ACTIVE for the principal and
      ends TERMINATED with a completion instant, and the delete call
      carries the id and reason. */
  lemma ApprovalLifecycle()
    ensures
      var st := StartProcess(State(EmptyEngine(), [], []), "approval-process", Some("ORDER-001"),
                             Some(map["amount" := Num(5000)]), Some("alice"), 1, "p-1");
      && st.result.Success?
      && LastCall(st.state.engine) == StartByKeyWithBusinessKey("approval-process", "ORDER-001", map["amount" := Num(5000)])
      && st.state.instances == [WorkflowInstance("approval-process", Some("ORDER-001"), ACTIVE, "alice", Some(1), None)]
      && GetProcessStatus(st.state.engine, "p-1").Some?
      && !GetProcessStatus(st.state.engine, "p-1").value.IsEnded()
      && var t := TerminateProcess(st.state, "p-1", Some("done"), 2);
         && t.result.Success?
         && LastCall(t.state.engine) == DeleteProcessInstance("p-1", Some("done"))
         && t.state.instances[0].status == TERMINATED
         && t.state.instances[0].completedAt == Some(2)
  {
    var st := StartProcess(State(EmptyEngine(), [], []), "approval-process", Some("ORDER-001"),
                           Some(map["amount" := Num(5000)]), Some("alice"), 1, "p-1");
    assert !IsBlank("ORDER-001") by { assert !IsWhitespace("ORDER-001"[0]); }
    assert st.state.instances[..0] == [];
  }

  /** A blank business key takes the key-only overload and the engine's
      instance has no business key, yet the shadow row keeps the blank key
      and so becomes a candidate for any later termination. */
  lemma BlankKeyStartsWithoutKey()
    ensures
      var st := StartProcess(State(EmptyEngine(), [], []), "approval-process", Some("   "),
                             Some(map["key" := Str("value")]), None, 1, "p-9");
      && LastCall(st.state.engine) == StartByKey("approval-process", map["key" := Str("value")])
      && st.result.Success? && st.result.value.businessKey.None?
      && st.state.instances[0].businessKey == Some("   ")
      && st.state.instances[0].startedBy == "system"
      && FirstKeyed(st.state.instances) == Some(0)
  {
    assert IsBlank("   ");
  }

  // ---------------------------------------------------------------------
  // Terminate reconciliation: as written versus matched to the instance

  /** Two running orders, each shadowed by an ACTIVE row with its own
      business key, in start order. */
  function TwoOrders(): State {
    var e := EmptyEngine().(live := map[
      "p-1" := LiveInstance("p-1", "approval:1:def-1", Some("ORDER-1"), false, 1, map[]),
      "p-2" := LiveInstance("p-2", "approval:1:def-1", Some("ORDER-2"), false, 2, map[])]);
    State(e, [WorkflowInstance("approval-process", Some("ORDER-1"), ACTIVE, "alice", Some(1), None),
              WorkflowInstance("approval-process", Some("ORDER-2"), ACTIVE, "bob", Some(2), None)], [])
  }

  /** Terminating the second order marks the FIRST order's row as
      terminated and leaves the second order's row ACTIVE. */
  lemma TerminateMisTargets()
    ensures TwoOrders().engine.live["p-2"].businessKey == TwoOrders().instances[1].businessKey
    ensures
      var t := TerminateProcess(TwoOrders(), "p-2", Some("cancelled"), 5);
      && t.result.Success?
      && t.state.instances[0].businessKey == Some("ORDER-1") && t.state.instances[0].status == TERMINATED
      && t.state.instances[1].businessKey == Some("ORDER-2") && t.state.instances[1].status == ACTIVE
  {
  }

  /** Index of the first ACTIVE row carrying business key `key`. */
  function FirstActiveWithKey(rows: seq<WorkflowInstance>, key: string): (r: Option<nat>)
    ensures r.None? <==> forall i | 0 <= i < |rows| :: !(rows[i].status == ACTIVE && rows[i].businessKey == Some(key))
    ensures r.Some? ==> r.value < |rows| && rows[r.value].status == ACTIVE && rows[r.value].businessKey == Some(key)
    ensures r.Some? ==> forall i | 0 <= i < r.value :: !(rows[i].status == ACTIVE && rows[i].businessKey == Some(key))
  {
    FirstIndex(rows, (w: WorkflowInstance) => w.status == ACTIVE && w.businessKey == Some(key))
  }

  /** Reconciliation matched to the terminated instance: only the first
      ACTIVE row whose business key is the instance's is terminated; every
      other row, including later ACTIVE rows with the same key, is kept, and
      an instance without a business key touches no row. */
  function TerminateMatching(rows: seq<WorkflowInstance>, key: Option<string>, now: Timestamp): (r: seq<WorkflowInstance>)
    ensures |r| == |rows|
    ensures forall i | 0 <= i < |rows| && r[i] != rows[i] ::
      key.Some? && rows[i].businessKey == key && rows[i].status == ACTIVE && r[i].status == TERMINATED
    ensures key.None? || FirstActiveWithKey(rows, key.value).None? ==> r == rows
    ensures key.Some? && FirstActiveWithKey(rows, key.value).Some? ==>
      var k := FirstActiveWithKey(rows, key.value).value;
      && r[k] == rows[k].(status := TERMINATED, completedAt := Some(now))
      && forall i | 0 <= i < |rows| && i != k :: r[i] == rows[i]
  {
    if key.None? then rows
    else match FirstActiveWithKey(rows, key.value)
      case None => rows
      case Some(k) => rows[k := Terminated(rows[k], now)]
  }

  /** `terminateProcess` with the reconciliation matched to the instance
      being terminated: its business key is read from the live store before
      the delete. */
  function TerminateProcessMatched(s: State, id: string, reason: Option<string>, now: Timestamp): (r: Step<()>)
    ensures OneMoreCall(s.engine, r.state.engine)
    ensures LastCall(r.state.engine) == DeleteProcessInstance(id, reason)
    ensures r.result.Failure? <==> id !in s.engine.live
    ensures r.result.Failure? ==> r.state.instances == s.instances
    ensures r.result.Success? ==>
      && |r.state.instances| == |s.instances|
      && (forall i | 0 <= i < |s.instances| && r.state.instances[i] != s.instances[i] ::
            s.instances[i].businessKey.Some? && s.instances[i].businessKey == s.engine.live[id].businessKey)
    ensures r.result.Success? && s.engine.live[id].businessKey.Some?
            && FirstActiveWithKey(s.instances, s.engine.live[id].businessKey.value).Some? ==>
      var k := FirstActiveWithKey(s.instances, s.engine.live[id].businessKey.value).value;
      && r.state.instances[k].status == TERMINATED && r.state.instances[k].completedAt == Some(now)
      && forall i | 0 <= i < |s.instances| && i != k :: r.state.instances[i] == s.instances[i]
    ensures r.result.Success? && (s.engine.live[id].businessKey.None?
            || FirstActiveWithKey(s.instances, s.engine.live[id].businessKey.value).None?) ==>
      r.state.instances == s.instances
    ensures r.state.assignments == s.assignments
  {
    var key := if id in s.engine.live then s.engine.live[id].businessKey else None;
    var e1 := Log(s.engine, DeleteProcessInstance(id, reason));
    match Delete(e1, id, reason, now)
    case Failure(err) => Step(s.(engine := e1), Failure(EngineFailed(err)))
    case Success(e2) => Step(s.(engine := e2, instances := TerminateMatching(s.instances, key, now)), Success(()))
  }

  /** On the two-order table the matched reconciliation terminates the
      second order's row and leaves the first order's row ACTIVE. */
  lemma MatchedTerminateHitsTheInstance()
    ensures
      var t := TerminateProcessMatched(TwoOrders(), "p-2", Some("cancelled"), 5);
      && t.result.Success?
      && t.state.instances[0].status == ACTIVE
      && t.state.instances[1].status == TERMINATED
  {
    assert FirstActiveWithKey(TwoOrders().instances, "ORDER-2") == Some(1);
  }

  /** The matched reconciliation keeps every shadow row well formed too. */
  lemma MatchedTerminateKeepsRowsWellFormed(s: State, id: string, reason: Option<string>, now: Timestamp)
    requires AllWellFormed(s.instances)
    ensures AllWellFormed(TerminateProcessMatched(s, id, reason, now).state.instances)
  {
  }

  /** After a successful matched terminate the instance reports as ended
      with its reason, as with the reconciliation as written. */
  lemma MatchedTerminatedInstanceIsEnded(s: State, id: string, reason: Option<string>, now: Timestamp)
    requires TerminateProcessMatched(s, id, reason, now).result.Success?
    ensures var st := GetProcessStatus(TerminateProcessMatched(s, id, reason, now).state.engine, id);
            st.Some? && st.value.IsEnded() && st.value.deleteReason == reason
  {
  }
}
