/** `TaskService`: the user's task inbox (assigned tasks merged with
    candidate tasks, without duplicates), task details, and claim and
    complete, each mirrored in the `task_assignments` table. */
module TaskService {
  import opened Wrappers
  import opened JavaLang
  import opened ProcessVariables
  import opened Engine
  import opened TaskAssignmentEntity
  import opened Tracking
  import opened Seqs
  import ProcessService

  /** The map `mapTask` builds for one task. */
  datatype TaskView = TaskView(
    id: string,
    name: Option<string>,
    description: Option<string>,
    assignee: Option<string>,
    processInstanceId: string,
    processDefinitionId: string,
    createTime: Timestamp,
    dueDate: Option<Timestamp>,
    priority: int,
    isClaimed: bool)

  /** `mapTask(task, isClaimed)`: the task's fields plus the given flag. */
  function MapTask(t: Task, isClaimed: bool): (v: TaskView)
    ensures v.id == t.id && v.isClaimed == isClaimed && v.assignee == t.assignee
  {
    TaskView(t.id, t.name, t.description, t.assignee, t.processInstanceId, t.processDefinitionId,
             t.createTime, t.dueDate, t.priority, isClaimed)
  }

  function Views(ts: seq<Task>, isClaimed: bool): (r: seq<TaskView>)
    ensures |r| == |ts|
    ensures forall i | 0 <= i < |ts| :: r[i] == MapTask(ts[i], isClaimed)
  {
    seq(|ts|, i requires 0 <= i < |ts| => MapTask(ts[i], isClaimed))
  }

  function TaskIds(ts: seq<Task>): set<string> {
    set i | 0 <= i < |ts| :: ts[i].id
  }

  function ViewIds(vs: seq<TaskView>): set<string> {
    set i | 0 <= i < |vs| :: vs[i].id
  }

  predicate DistinctIds(vs: seq<TaskView>) {
    forall i, j | 0 <= i < j < |vs| :: vs[i].id != vs[j].id
  }

  /** The insertion-ordered de-duplication the service performs with its
      `HashSet`: an entry is kept when its id has not been seen yet. */
  function Dedup(vs: seq<TaskView>, seen: set<string>): (r: seq<TaskView>)
    ensures |r| <= |vs|
    ensures forall i | 0 <= i < |r| :: r[i] in vs && r[i].id !in seen
    decreases |vs|
  {
    if |vs| == 0 then []
    else if vs[0].id in seen then Dedup(vs[1..], seen)
    else [vs[0]] + Dedup(vs[1..], seen + {vs[0].id})
  }

  lemma ViewIdsCons(vs: seq<TaskView>)
    requires |vs| > 0
    ensures ViewIds(vs) == {vs[0].id} + ViewIds(vs[1..])
  {
    forall x | x in ViewIds(vs)
      ensures x in {vs[0].id} + ViewIds(vs[1..])
    {
      var i :| 0 <= i < |vs| && vs[i].id == x;
      if i > 0 {
        assert vs[1..][i - 1].id == x;
      }
    }
    forall x | x in ViewIds(vs[1..])
      ensures x in ViewIds(vs)
    {
      var i :| 0 <= i < |vs[1..]| && vs[1..][i].id == x;
      assert vs[i + 1].id == x;
    }
  }

  lemma ViewIdsOfViews(ts: seq<Task>, isClaimed: bool)
    ensures ViewIds(Views(ts, isClaimed)) == TaskIds(ts)
  {
    var vs := Views(ts, isClaimed);
    forall x | x in TaskIds(ts)
      ensures x in ViewIds(vs)
    {
      var i :| 0 <= i < |ts| && ts[i].id == x;
      assert vs[i].id == x;
    }
  }

  /** De-duplicating a concatenation is de-duplicating the first part and
      then the second part against everything the first part has seen. */
  lemma {:induction false} DedupAppend(a: seq<TaskView>, b: seq<TaskView>, seen: set<string>)
    ensures Dedup(a + b, seen) == Dedup(a, seen) + Dedup(b, seen + ViewIds(a))
    decreases |a|
  {
    if |a| == 0 {
      assert a + b == b;
      assert ViewIds(a) == {};
      assert seen + ViewIds(a) == seen;
    } else {
      assert (a + b)[0] == a[0];
      assert (a + b)[1..] == a[1..] + b;
      ViewIdsCons(a);
      if a[0].id in seen {
        DedupAppend(a[1..], b, seen);
        assert seen + ViewIds(a[1..]) == seen + ViewIds(a);
      } else {
        DedupAppend(a[1..], b, seen + {a[0].id});
        assert seen + {a[0].id} + ViewIds(a[1..]) == seen + ViewIds(a);
      }
    }
  }

  /** De-duplication keeps exactly the ids of the input not already seen. */
  lemma {:induction false} DedupIds(vs: seq<TaskView>, seen: set<string>)
    ensures ViewIds(Dedup(vs, seen)) == ViewIds(vs) - seen
    decreases |vs|
  {
    if |vs| == 0 {
      assert ViewIds(vs) == {};
    } else {
      ViewIdsCons(vs);
      var tail := vs[1..];
      if vs[0].id in seen {
        DedupIds(tail, seen);
      } else {
        var seen' := seen + {vs[0].id};
        DedupIds(tail, seen');
        var d := Dedup(tail, seen');
        var r := [vs[0]] + d;
        assert r == Dedup(vs, seen);
        ViewIdsCons(r);
        assert r[1..] == d;
      }
    }
  }

  /** De-duplication never keeps an id twice. */
  lemma {:induction false} DedupDistinct(vs: seq<TaskView>, seen: set<string>)
    ensures DistinctIds(Dedup(vs, seen))
    decreases |vs|
  {
    if |vs| > 0 {
      var tail := vs[1..];
      if vs[0].id in seen {
        DedupDistinct(tail, seen);
      } else {
        var seen' := seen + {vs[0].id};
        DedupDistinct(tail, seen');
        var d := Dedup(tail, seen');
        var r := [vs[0]] + d;
        assert r == Dedup(vs, seen);
        forall i, j | 0 <= i < j < |r|
          ensures r[i].id != r[j].id
        {
          if i == 0 {
            assert r[j] == d[j - 1];
            assert d[j - 1].id !in seen';
          } else {
            assert r[i] == d[i - 1] && r[j] == d[j - 1];
          }
        }
      }
    }
  }

  /** What de-duplication guarantees: no id twice, exactly the unseen ids
      of the input, only entries of the input, and none already seen. */
  lemma DedupProperties(vs: seq<TaskView>, seen: set<string>)
    ensures DistinctIds(Dedup(vs, seen))
    ensures ViewIds(Dedup(vs, seen)) == ViewIds(vs) - seen
    ensures forall i | 0 <= i < |Dedup(vs, seen)| :: Dedup(vs, seen)[i] in vs && Dedup(vs, seen)[i].id !in seen
  {
    DedupDistinct(vs, seen);
    DedupIds(vs, seen);
  }

  lemma DedupSingle(v: TaskView, seen: set<string>)
    ensures Dedup([v], seen) == if v.id in seen then [] else [v]
  {
    assert [v][1..] == [];
  }

  lemma ViewsSnoc(ts: seq<Task>, i: nat, isClaimed: bool)
    requires i < |ts|
    ensures Views(ts[..i + 1], isClaimed) == Views(ts[..i], isClaimed) + [MapTask(ts[i], isClaimed)]
    ensures TaskIds(ts[..i + 1]) == TaskIds(ts[..i]) + {ts[i].id}
  {
    var a := ts[..i + 1];
    var b := ts[..i];
    assert Views(a, isClaimed) == Views(b, isClaimed) + [MapTask(ts[i], isClaimed)];
    forall x | x in TaskIds(a)
      ensures x in TaskIds(b) + {ts[i].id}
    {
      var k :| 0 <= k < |a| && a[k].id == x;
      if k < i {
        assert b[k].id == x;
      }
    }
    forall x | x in TaskIds(b)
      ensures x in TaskIds(a)
    {
      var k :| 0 <= k < |b| && b[k].id == x;
      assert a[k].id == x;
    }
    assert a[i].id == ts[i].id;
  }

  /** Extending a query answer by one task extends its de-duplicated views
      by that task's view exactly when its id is new. */
  lemma DedupStep(ts: seq<Task>, i: nat, isClaimed: bool, seen: set<string>)
    requires i < |ts|
    ensures TaskIds(ts[..i + 1]) == TaskIds(ts[..i]) + {ts[i].id}
    ensures Dedup(Views(ts[..i + 1], isClaimed), seen)
         == Dedup(Views(ts[..i], isClaimed), seen)
            + (if ts[i].id in seen + TaskIds(ts[..i]) then [] else [MapTask(ts[i], isClaimed)])
  {
    ViewsSnoc(ts, i, isClaimed);
    DedupAppend(Views(ts[..i], isClaimed), [MapTask(ts[i], isClaimed)], seen);
    ViewIdsOfViews(ts[..i], isClaimed);
    DedupSingle(MapTask(ts[i], isClaimed), seen + TaskIds(ts[..i]));
  }

  lemma ConcatViewIds(a: seq<TaskView>, c: seq<TaskView>)
    ensures ViewIds(a + c) == ViewIds(a) + ViewIds(c)
  {
    forall x | x in ViewIds(a + c)
      ensures x in ViewIds(a) + ViewIds(c)
    {
      var k :| 0 <= k < |a + c| && (a + c)[k].id == x;
      if k < |a| { assert a[k].id == x; } else { assert c[k - |a|].id == x; }
    }
    forall x | x in ViewIds(a) + ViewIds(c)
      ensures x in ViewIds(a + c)
    {
      if x in ViewIds(a) {
        var k :| 0 <= k < |a| && a[k].id == x;
        assert (a + c)[k].id == x;
      } else {
        var k :| 0 <= k < |c| && c[k].id == x;
        assert (a + c)[|a| + k].id == x;
      }
    }
  }

  /** The assigned part of the inbox is all claimed and covers the assigned
      ids; the candidate part is all unclaimed and avoids them. */
  lemma ClaimedFlags(assignedTasks: seq<Task>, candidateTasks: seq<Task>)
    ensures var d1 := Dedup(Views(assignedTasks, true), {});
            forall i | 0 <= i < |d1| :: d1[i].isClaimed && d1[i].id in TaskIds(assignedTasks)
    ensures var d2 := Dedup(Views(candidateTasks, false), TaskIds(assignedTasks));
            forall i | 0 <= i < |d2| :: !d2[i].isClaimed && d2[i].id !in TaskIds(assignedTasks)
  {
    var A := Views(assignedTasks, true);
    var C := Views(candidateTasks, false);
    var d1 := Dedup(A, {});
    var d2 := Dedup(C, TaskIds(assignedTasks));
    DedupProperties(A, {});
    DedupProperties(C, TaskIds(assignedTasks));
    forall i | 0 <= i < |d1|
      ensures d1[i].isClaimed && d1[i].id in TaskIds(assignedTasks)
    {
      var k :| 0 <= k < |A| && A[k] == d1[i];
      assert d1[i].id == assignedTasks[k].id;
    }
    forall i | 0 <= i < |d2|
      ensures !d2[i].isClaimed
    {
      var k :| 0 <= k < |C| && C[k] == d2[i];
    }
  }

  /** What the merge of the two answers guarantees. */
  lemma MergeProperties(assignedTasks: seq<Task>, candidateTasks: seq<Task>)
    ensures var A := Views(assignedTasks, true);
            var C := Views(candidateTasks, false);
            var r := Dedup(A, {}) + Dedup(C, TaskIds(assignedTasks));
            && r == Dedup(A + C, {})
            && DistinctIds(r)
            && ViewIds(r) == TaskIds(assignedTasks) + TaskIds(candidateTasks)
            && (forall i | 0 <= i < |r| :: r[i].isClaimed <==> r[i].id in TaskIds(assignedTasks))
            && (forall i | 0 <= i < |r| :: r[i] in A || r[i] in C)
  {
    var A := Views(assignedTasks, true);
    var C := Views(candidateTasks, false);
    var d1 := Dedup(A, {});
    var d2 := Dedup(C, TaskIds(assignedTasks));
    var r := d1 + d2;
    ViewIdsOfViews(assignedTasks, true);
    ViewIdsOfViews(candidateTasks, false);
    DedupAppend(A, C, {});
    assert {} + ViewIds(A) == TaskIds(assignedTasks);
    DedupProperties(A + C, {});
    ConcatViewIds(A, C);
    ClaimedFlags(assignedTasks, candidateTasks);
    forall i | 0 <= i < |r|
      ensures r[i].isClaimed <==> r[i].id in TaskIds(assignedTasks)
    {
      if i < |d1| { assert r[i] == d1[i]; } else { assert r[i] == d2[i - |d1|]; }
    }
  }

  /** `getUserTasks`: `assignedTasks` and `candidateTasks` are the engine's
      answers to the assignee query and the candidate-user query, each in
      the engine's order (newest first). The result lists every task of
      either answer exactly once: the assigned ones first, in their order
      and flagged as claimed, then the candidate-only ones in their order
      and flagged as unclaimed. A task in both answers is reported once, as
      claimed. */
  method GetUserTasks(assignedTasks: seq<Task>, candidateTasks: seq<Task>) returns (r: seq<TaskView>)
    ensures r == Dedup(Views(assignedTasks, true), {}) + Dedup(Views(candidateTasks, false), TaskIds(assignedTasks))
    ensures r == Dedup(Views(assignedTasks, true) + Views(candidateTasks, false), {})
    ensures DistinctIds(r)
    ensures ViewIds(r) == TaskIds(assignedTasks) + TaskIds(candidateTasks)
    ensures forall i | 0 <= i < |r| :: r[i].isClaimed <==> r[i].id in TaskIds(assignedTasks)
    ensures forall i | 0 <= i < |r| :: r[i] in Views(assignedTasks, true) || r[i] in Views(candidateTasks, false)
  {
    var claimed, taskIds := AppendUnseen([], {}, assignedTasks, true);
    assert [] + Dedup(Views(assignedTasks, true), {}) == Dedup(Views(assignedTasks, true), {});
    assert {} + TaskIds(assignedTasks) == TaskIds(assignedTasks);
    r, taskIds := AppendUnseen(claimed, taskIds, candidateTasks, false);
    MergeProperties(assignedTasks, candidateTasks);
  }

  /** One of the two loops of `getUserTasks`: each task whose id is not in
      the set yet is mapped with the given claimed flag and appended, and
      its id joins the set. */
  method AppendUnseen(start: seq<TaskView>, seen: set<string>, ts: seq<Task>, isClaimed: bool)
    returns (r: seq<TaskView>, taskIds: set<string>)
    ensures r == start + Dedup(Views(ts, isClaimed), seen)
    ensures taskIds == seen + TaskIds(ts)
  {
    taskIds := seen;
    r := start;
    for i := 0 to |ts|
      invariant r == start + Dedup(Views(ts[..i], isClaimed), seen)
      invariant taskIds == seen + TaskIds(ts[..i])
    {
      var task := ts[i];
      DedupStep(ts, i, isClaimed, seen);
      if task.id !in taskIds {
        taskIds := taskIds + {task.id};
        r := r + [MapTask(task, isClaimed)];
      }
    }
    assert ts[..|ts|] == ts;
  }

  /** The functional reading of `getUserTasks`, for stating properties
      against the engine's task table. */
  function UserTaskViews(assignedTasks: seq<Task>, candidateTasks: seq<Task>): seq<TaskView> {
    Dedup(Views(assignedTasks, true) + Views(candidateTasks, false), {})
  }

  /** `assignedTasks` and `candidateTasks` are faithful answers of the
      engine for `userId`: every listed task is the engine's task, assigned
      to the user (resp. unassigned and naming the user as a candidate, as
      the candidate-user query without assigned tasks answers), and every
      task assigned to the user (resp. unassigned with the user as
      candidate) is listed. */
  predicate AnswersQueries(e: Engine, userId: string, assignedTasks: seq<Task>, candidateTasks: seq<Task>) {
    && (forall i | 0 <= i < |assignedTasks| ::
          assignedTasks[i].id in e.tasks && e.tasks[assignedTasks[i].id] == assignedTasks[i]
          && assignedTasks[i].assignee == Some(userId))
    && (forall id | id in e.tasks && e.tasks[id].assignee == Some(userId) :: id in TaskIds(assignedTasks))
    && (forall i | 0 <= i < |candidateTasks| ::
          candidateTasks[i].id in e.tasks && e.tasks[candidateTasks[i].id] == candidateTasks[i]
          && candidateTasks[i].assignee.None? && userId in candidateTasks[i].candidateUsers)
    && (forall id | id in e.tasks && e.tasks[id].assignee.None? && userId in e.tasks[id].candidateUsers ::
          id in TaskIds(candidateTasks))
  }

  /** Against faithful query answers, the inbox lists exactly the tasks
      the user holds or may claim: each reported task is the user's or
      names the user as candidate, a task reported as claimed is assigned
      to the user, a task reported as unclaimed is unassigned and the user
      can claim it unless its instance is suspended, and no task assigned to the user, nor any unassigned
      task the user may claim, is missing. */
  lemma InboxMatchesEngine(e: Engine, userId: string, assignedTasks: seq<Task>, candidateTasks: seq<Task>)
    requires AnswersQueries(e, userId, assignedTasks, candidateTasks)
    ensures forall v | v in UserTaskViews(assignedTasks, candidateTasks) ::
      v.id in e.tasks && (e.tasks[v.id].assignee == Some(userId) || userId in e.tasks[v.id].candidateUsers)
    ensures forall v | v in UserTaskViews(assignedTasks, candidateTasks) && v.isClaimed ::
      e.tasks[v.id].assignee == Some(userId)
    ensures forall v | v in UserTaskViews(assignedTasks, candidateTasks) && !v.isClaimed ::
      e.tasks[v.id].assignee.None? && (Claim(e, v.id, userId).Success? <==> !TaskSuspended(e, v.id))
    ensures forall id | id in e.tasks && e.tasks[id].assignee == Some(userId) ::
      id in ViewIds(UserTaskViews(assignedTasks, candidateTasks))
    ensures forall id | id in e.tasks && e.tasks[id].assignee.None? && userId in e.tasks[id].candidateUsers ::
      id in ViewIds(UserTaskViews(assignedTasks, candidateTasks))
  {
    var A := Views(assignedTasks, true);
    var C := Views(candidateTasks, false);
    var r := UserTaskViews(assignedTasks, candidateTasks);
    MergeProperties(assignedTasks, candidateTasks);
    forall v | v in r
      ensures v.id in e.tasks && (e.tasks[v.id].assignee == Some(userId) || userId in e.tasks[v.id].candidateUsers)
      ensures v.isClaimed ==> e.tasks[v.id].assignee == Some(userId)
      ensures !v.isClaimed ==> e.tasks[v.id].assignee.None? && (Claim(e, v.id, userId).Success? <==> !TaskSuspended(e, v.id))
    {
      var i :| 0 <= i < |r| && r[i] == v;
      if v in A {
        AssignedViewIsHeld(e, userId, assignedTasks, candidateTasks, v);
      } else {
        CandidateViewIsClaimable(e, userId, assignedTasks, candidateTasks, v);
      }
    }
  }

  /** A view built from the assignee answer is of a task the user holds. */
  lemma AssignedViewIsHeld(e: Engine, userId: string, assignedTasks: seq<Task>, candidateTasks: seq<Task>, v: TaskView)
    requires AnswersQueries(e, userId, assignedTasks, candidateTasks)
    requires v in Views(assignedTasks, true)
    ensures v.id in e.tasks && e.tasks[v.id].assignee == Some(userId)
  {
    var A := Views(assignedTasks, true);
    var k :| 0 <= k < |A| && A[k] == v;
    assert v.id == assignedTasks[k].id;
  }

  /** A view built from the candidate answer is unclaimed and of an
      unassigned task naming the user as candidate, so the user's claim of
      it succeeds exactly when the task is not suspended. */
  lemma CandidateViewIsClaimable(e: Engine, userId: string, assignedTasks: seq<Task>, candidateTasks: seq<Task>, v: TaskView)
    requires AnswersQueries(e, userId, assignedTasks, candidateTasks)
    requires v in Views(candidateTasks, false)
    ensures v.id in e.tasks && userId in e.tasks[v.id].candidateUsers && !v.isClaimed
    ensures e.tasks[v.id].assignee.None? && (Claim(e, v.id, userId).Success? <==> !TaskSuspended(e, v.id))
  {
    var C := Views(candidateTasks, false);
    var k :| 0 <= k < |C| && C[k] == v;
    assert v.id == candidateTasks[k].id;
  }

  // ---------------------------------------------------------------------
  // Details

  datatype TaskDetails = TaskDetails(view: TaskView, variables: Variables)

  /** `getTaskDetails`: null for an unknown task; otherwise the task's view,
      claimed exactly when it has an assignee, with its variables. */
  function GetTaskDetails(e: Engine, taskId: string): (r: Option<TaskDetails>)
    ensures r.None? <==> taskId !in e.tasks
    ensures r.Some? ==>
      && r.value.view == MapTask(e.tasks[taskId], r.value.view.isClaimed)
      && (r.value.view.isClaimed <==> e.tasks[taskId].assignee.Some?)
      && r.value.variables == e.tasks[taskId].variables
  {
    if taskId !in e.tasks then None
    else
      var t := e.tasks[taskId];
      Some(TaskDetails(MapTask(t, t.assignee.Some?), t.variables))
  }

  // ---------------------------------------------------------------------
  // Claim and complete

  /** A CLAIMED row of `userId` for `taskId`. */
  predicate ClaimedBy(a: TaskAssignment, taskId: string, userId: string) {
    a.assignee == userId && a.status == CLAIMED && a.taskId == taskId
  }

  /** How many CLAIMED rows the table holds for the pair. */
  function ClaimedCount(rows: seq<TaskAssignment>, taskId: string, userId: string): nat {
    if |rows| == 0 then 0
    else (if ClaimedBy(rows[0], taskId, userId) then 1 else 0) + ClaimedCount(rows[1..], taskId, userId)
  }

  /** `claimTask`: the engine claim comes first; when the engine refuses
      (unknown task, suspended task, or someone else holds it) nothing is
      written.
      Otherwise exactly one CLAIMED row is appended, copying the task's
      instance, name and due date; existing rows are untouched, so
      repeated claims append again. */
  function ClaimTask(s: State, taskId: string, userId: string, now: Timestamp): (r: Step<()>)
    ensures OneMoreCall(s.engine, r.state.engine)
    ensures LastCall(r.state.engine) == Call.ClaimTask(taskId, userId)
    ensures r.result.Failure? <==>
      || taskId !in s.engine.tasks
      || TaskSuspended(s.engine, taskId)
      || (s.engine.tasks[taskId].assignee.Some? && s.engine.tasks[taskId].assignee.value != userId)
    ensures taskId in s.engine.tasks && TaskSuspended(s.engine, taskId) ==>
      r.result == Failure(EngineFailed(SuspendedTask(taskId)))
    ensures r.result.Failure? ==> r.state.assignments == s.assignments && r.state.engine.tasks == s.engine.tasks
    ensures r.result.Success? ==>
      && |r.state.assignments| == |s.assignments| + 1
      && r.state.assignments[..|s.assignments|] == s.assignments
      && taskId in r.state.engine.tasks && r.state.engine.tasks[taskId].assignee == Some(userId)
      && var row := r.state.assignments[|s.assignments|];
         && row.taskId == taskId && row.assignee == userId && row.status == CLAIMED
         && row.processInstanceId == s.engine.tasks[taskId].processInstanceId
         && row.taskName == s.engine.tasks[taskId].name
         && row.dueDate == s.engine.tasks[taskId].dueDate
         && row.createdAt == Some(now)
    ensures r.state.instances == s.instances
  {
    var e1 := Log(s.engine, Call.ClaimTask(taskId, userId));
    match Claim(e1, taskId, userId)
    case Failure(err) => Step(s.(engine := e1), Failure(EngineFailed(err)))
    case Success(e2) =>
      var t := e2.tasks[taskId];
      var row := OnCreate(TaskAssignment(taskId, t.processInstanceId, userId, t.name, CLAIMED, t.dueDate, Some(now)), now);
      Step(s.(engine := e2, assignments := s.assignments + [row]), Success(()))
  }

  /** Index of the first CLAIMED row of `userId` for `taskId`. */
  function FirstClaimed(rows: seq<TaskAssignment>, taskId: string, userId: string): (r: Option<nat>)
    ensures r.None? <==> forall i | 0 <= i < |rows| :: !ClaimedBy(rows[i], taskId, userId)
    ensures r.Some? ==> r.value < |rows| && ClaimedBy(rows[r.value], taskId, userId)
    ensures r.Some? ==> forall i | 0 <= i < r.value :: !ClaimedBy(rows[i], taskId, userId)
  {
    FirstIndex(rows, (a: TaskAssignment) => ClaimedBy(a, taskId, userId))
  }

  /** The reconciliation `completeTask` performs on the table: the first
      CLAIMED row of the user for the task becomes COMPLETED; every other
      row is kept, and without such a row the table is unchanged. */
  function CompleteFirstClaimed(rows: seq<TaskAssignment>, taskId: string, userId: string): (r: seq<TaskAssignment>)
    ensures |r| == |rows|
    ensures FirstClaimed(rows, taskId, userId).None? ==> r == rows
    ensures FirstClaimed(rows, taskId, userId).Some? ==>
      var k := FirstClaimed(rows, taskId, userId).value;
      && r[k] == rows[k].(status := COMPLETED)
      && forall i | 0 <= i < |rows| && i != k :: r[i] == rows[i]
  {
    match FirstClaimed(rows, taskId, userId)
    case None => rows
    case Some(k) => rows[k := ApplyUpdate(rows[k], rows[k].(status := COMPLETED))]
  }

  /** `completeTask`. An unknown task fails before anything happens.
      Otherwise a comment is recorded against the task's process instance
      exactly when it has text, then the task is completed through the
      variables overload exactly when the variables are non-null and
      non-empty, and the shadow table is reconciled by
      `CompleteFirstClaimed`. A suspended task makes the first of these
      engine calls throw; the transaction then leaves no comment, no
      completion and no row change behind. */
  function CompleteTask(s: State, taskId: string, userId: string, variables: Option<Variables>,
                        comment: Option<string>): (r: Step<()>)
    ensures r.result.Failure? <==> taskId !in s.engine.tasks || TaskSuspended(s.engine, taskId)
    ensures taskId !in s.engine.tasks ==> r.state == s && r.result.error == TaskNotFound(taskId)
    ensures taskId in s.engine.tasks && TaskSuspended(s.engine, taskId) ==>
      && r.result == Failure(EngineFailed(SuspendedTask(taskId)))
      && OneMoreCall(s.engine, r.state.engine)
      && (HasText(comment) <==> LastCall(r.state.engine).CreateComment?)
      && r.state == s.(engine := s.engine.(calls := r.state.engine.calls))
    ensures r.result.Success? ==>
      var t := s.engine.tasks[taskId];
      var completion := if variables.Some? && |variables.value| > 0
                        then CompleteTaskWithVariables(taskId, variables.value)
                        else Call.CompleteTask(taskId);
      && (HasText(comment) ==>
            && r.state.engine.calls == s.engine.calls + [CreateComment(taskId, t.processInstanceId, comment.value), completion]
            && r.state.engine.comments == s.engine.comments + [Comment(taskId, t.processInstanceId, comment.value)])
      && (!HasText(comment) ==>
            && r.state.engine.calls == s.engine.calls + [completion]
            && r.state.engine.comments == s.engine.comments)
      && taskId !in r.state.engine.tasks
      && r.state.assignments == CompleteFirstClaimed(s.assignments, taskId, userId)
    ensures r.state.instances == s.instances
  {
    if taskId !in s.engine.tasks then Step(s, Failure(TaskNotFound(taskId)))
    else
      var t := s.engine.tasks[taskId];
      var commented := if HasText(comment)
                       then var logged := Log(s.engine, CreateComment(taskId, t.processInstanceId, comment.value));
                            AddComment(logged, taskId, t.processInstanceId, comment.value)
                       else Success(s.engine);
      match commented
      case Failure(err) =>
        var calls := s.engine.calls + [CreateComment(taskId, t.processInstanceId, comment.value)];
        Step(s.(engine := s.engine.(calls := calls)), Failure(EngineFailed(err)))
      case Success(e1) =>
        var e2 := if variables.Some? && |variables.value| > 0
                  then Log(e1, CompleteTaskWithVariables(taskId, variables.value))
                  else Log(e1, Call.CompleteTask(taskId));
        match Complete(e2, taskId)
        case Failure(err) => Step(s.(engine := s.engine.(calls := e2.calls)), Failure(EngineFailed(err)))
        case Success(e3) =>
          Step(s.(engine := e3, assignments := CompleteFirstClaimed(s.assignments, taskId, userId)), Success(()))
  }

  /** A suspended instance "p-1" with an unassigned task "t-1" that
      "alice" may claim. */
  function SuspendedInbox(): State {
    var e := ProcessService.EmptyEngine().(
      live := map["p-1" := LiveInstance("p-1", "approval:1:def-1", None, true, 1, map[])],
      tasks := map["t-1" := Task("t-1", Some("Review"), None, None, {"alice"}, "p-1", "approval:1:def-1",
                                 1, None, 50, map[])]);
    State(e, [], [])
  }

  /** Claiming or completing a task of a suspended instance is refused by
      the engine, and neither a comment nor a row is written. */
  lemma SuspendedTaskIsRefused()
    ensures var c := ClaimTask(SuspendedInbox(), "t-1", "alice", 5);
      && c.result == Failure(EngineFailed(SuspendedTask("t-1")))
      && c.state.assignments == []
    ensures var d := CompleteTask(SuspendedInbox(), "t-1", "alice", None, Some("ok"));
      && d.result == Failure(EngineFailed(SuspendedTask("t-1")))
      && d.state.engine.comments == [] && "t-1" in d.state.engine.tasks && d.state.assignments == []
  {
    assert TaskSuspended(SuspendedInbox().engine, "t-1");
    assert HasText(Some("ok")) by { assert !IsWhitespace("ok"[0]); }
  }

  // ---------------------------------------------------------------------
  // Counting claims

  lemma {:induction false} ClaimedCountAppend(rows: seq<TaskAssignment>, row: TaskAssignment, taskId: string, userId: string)
    ensures ClaimedCount(rows + [row], taskId, userId)
         == ClaimedCount(rows, taskId, userId) + (if ClaimedBy(row, taskId, userId) then 1 else 0)
    decreases |rows|
  {
    if |rows| == 0 {
      assert rows + [row] == [row];
      assert [row][1..] == [];
    } else {
      assert (rows + [row])[1..] == rows[1..] + [row];
      ClaimedCountAppend(rows[1..], row, taskId, userId);
    }
  }

  lemma {:induction false} ClaimedCountUpdate(rows: seq<TaskAssignment>, k: nat, row: TaskAssignment, taskId: string, userId: string)
    requires k < |rows|
    ensures ClaimedCount(rows[k := row], taskId, userId)
         == ClaimedCount(rows, taskId, userId)
            - (if ClaimedBy(rows[k], taskId, userId) then 1 else 0)
            + (if ClaimedBy(row, taskId, userId) then 1 else 0)
    decreases |rows|
  {
    if k == 0 {
      assert rows[k := row][1..] == rows[1..];
    } else {
      assert rows[k := row][1..] == rows[1..][k - 1 := row];
      ClaimedCountUpdate(rows[1..], k - 1, row, taskId, userId);
    }
  }

  /** Every successful claim adds one CLAIMED row for the pair, even when
      the user already holds one: claims are appended, never merged. */
  lemma ClaimAddsClaimedRow(s: State, taskId: string, userId: string, now: Timestamp)
    requires ClaimTask(s, taskId, userId, now).result.Success?
    ensures ClaimedCount(ClaimTask(s, taskId, userId, now).state.assignments, taskId, userId)
         == ClaimedCount(s.assignments, taskId, userId) + 1
  {
    var r := ClaimTask(s, taskId, userId, now);
    var rows := r.state.assignments;
    assert rows == s.assignments + [rows[|s.assignments|]];
    ClaimedCountAppend(s.assignments, rows[|s.assignments|], taskId, userId);
  }

  /** A user claiming the same task twice ends up with two CLAIMED rows
      for it. */
  lemma ClaimTwiceKeepsTwoRows(s: State, taskId: string, userId: string, t1: Timestamp, t2: Timestamp)
    requires ClaimTask(s, taskId, userId, t1).result.Success?
    ensures ClaimTask(ClaimTask(s, taskId, userId, t1).state, taskId, userId, t2).result.Success?
    ensures ClaimedCount(ClaimTask(ClaimTask(s, taskId, userId, t1).state, taskId, userId, t2).state.assignments, taskId, userId)
         == ClaimedCount(s.assignments, taskId, userId) + 2
  {
    var s1 := ClaimTask(s, taskId, userId, t1).state;
    ClaimAddsClaimedRow(s, taskId, userId, t1);
    ClaimAddsClaimedRow(s1, taskId, userId, t2);
  }

  /** A completion closes at most one of the user's CLAIMED rows for the
      task: exactly one when there is any, none otherwise. */
  lemma CompleteClosesOneClaim(s: State, taskId: string, userId: string, variables: Option<Variables>,
                               comment: Option<string>)
    requires CompleteTask(s, taskId, userId, variables, comment).result.Success?
    ensures var after := ClaimedCount(CompleteTask(s, taskId, userId, variables, comment).state.assignments, taskId, userId);
            var before := ClaimedCount(s.assignments, taskId, userId);
            (before > 0 ==> after == before - 1) && (before == 0 ==> after == 0)
  {
    var rows := s.assignments;
    match FirstClaimed(rows, taskId, userId)
    case None =>
      ClaimedCountNone(rows, taskId, userId);
    case Some(k) =>
      ClaimedCountUpdate(rows, k, ApplyUpdate(rows[k], rows[k].(status := COMPLETED)), taskId, userId);
  }

  lemma {:induction false} ClaimedCountNone(rows: seq<TaskAssignment>, taskId: string, userId: string)
    requires forall i | 0 <= i < |rows| :: !ClaimedBy(rows[i], taskId, userId)
    ensures ClaimedCount(rows, taskId, userId) == 0
    decreases |rows|
  {
    if |rows| > 0 {
      ClaimedCountNone(rows[1..], taskId, userId);
    }
  }

  // ---------------------------------------------------------------------
  // Details across claim, complete and terminate

  /** After a successful claim the task's details report it claimed, by
      the claiming user. */
  lemma ClaimShowsInDetails(s: State, taskId: string, userId: string, now: Timestamp)
    requires ClaimTask(s, taskId, userId, now).result.Success?
    ensures var d := GetTaskDetails(ClaimTask(s, taskId, userId, now).state.engine, taskId);
      && d.Some? && d.value.view.isClaimed && d.value.view.assignee == Some(userId)
  {
  }

  /** After a successful completion the task has no details any more. */
  lemma CompletedTaskHasNoDetails(s: State, taskId: string, userId: string, variables: Option<Variables>,
                                  comment: Option<string>)
    requires CompleteTask(s, taskId, userId, variables, comment).result.Success?
    ensures GetTaskDetails(CompleteTask(s, taskId, userId, variables, comment).state.engine, taskId).None?
  {
  }

  /** Terminating an instance takes its open tasks with it: their details
      read as null and completing one fails with "Task not found". */
  lemma TerminateClosesTasks(s: State, id: string, reason: Option<string>, now: Timestamp,
                             taskId: string, userId: string, variables: Option<Variables>, comment: Option<string>)
    requires ProcessService.TerminateProcess(s, id, reason, now).result.Success?
    requires taskId in s.engine.tasks && s.engine.tasks[taskId].processInstanceId == id
    ensures var after := ProcessService.TerminateProcess(s, id, reason, now).state;
      && GetTaskDetails(after.engine, taskId).None?
      && CompleteTask(after, taskId, userId, variables, comment).result == Failure(TaskNotFound(taskId))
  {
  }
}
