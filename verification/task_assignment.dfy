/** The local shadow record of a claimed task (table `task_assignments`). */
module TaskAssignmentEntity {
  import opened Wrappers
  import opened JavaLang

  /** Stored by name (`EnumType.STRING`). */
  datatype Status = PENDING | CLAIMED | COMPLETED

  /** A row. `taskId`, `processInstanceId`, `assignee` and `status` are
      non-nullable columns; `taskName` and `dueDate` are nullable.
      `createdAt` is an option only until `onCreate` fills it before the
      insert. The surrogate `id` is the row's position in the store. */
  datatype TaskAssignment = TaskAssignment(
    taskId: string,
    processInstanceId: string,
    assignee: string,
    taskName: Option<string>,
    status: Status,
    dueDate: Option<Timestamp>,
    createdAt: Option<Timestamp>)

  /** The name written to the `status` column. */
  function StatusName(s: Status): string {
    match s
    case PENDING => "PENDING"
    case CLAIMED => "CLAIMED"
    case COMPLETED => "COMPLETED"
  }

  /** Reading the `status` column back; any other text is not a status. */
  function ParseStatus(name: string): (r: Option<Status>)
    ensures r.Some? ==> StatusName(r.value) == name
  {
    if name == "PENDING" then Some(PENDING)
    else if name == "CLAIMED" then Some(CLAIMED)
    else if name == "COMPLETED" then Some(COMPLETED)
    else None
  }

  lemma StatusRoundTrip(s: Status)
    ensures ParseStatus(StatusName(s)) == Some(s)
  {
  }

  /** `@PrePersist onCreate`: fills `createdAt` only when absent. */
  function OnCreate(a: TaskAssignment, now: Timestamp): (r: TaskAssignment)
    ensures r.createdAt.Some?
    ensures a.createdAt.Some? ==> r == a
    ensures a.createdAt.None? ==> r == a.(createdAt := Some(now))
  {
    if a.createdAt.None? then a.(createdAt := Some(now)) else a
  }

  /** An update can never move `createdAt` (`updatable = false`). */
  function ApplyUpdate(stored: TaskAssignment, updated: TaskAssignment): (r: TaskAssignment)
    ensures r.createdAt == stored.createdAt
    ensures r.(createdAt := updated.createdAt) == updated
  {
    updated.(createdAt := stored.createdAt)
  }
}
