/** The local shadow record of a started process instance
    (table `workflow_instances`). */
module WorkflowInstanceEntity {
  import opened Wrappers
  import opened JavaLang

  /** Stored by name (`EnumType.STRING`). */
  datatype Status = ACTIVE | COMPLETED | SUSPENDED | TERMINATED

  /** A row. The non-nullable columns (`processDefinitionKey`, `status`,
      `startedBy`) are plain fields; the nullable ones (`businessKey`,
      `completedAt`) are options. `startedAt` is an option only because the
      Java object may lack it until `onCreate` runs before the insert. The
      surrogate `id` is the row's position in the store. */
  datatype WorkflowInstance = WorkflowInstance(
    processDefinitionKey: string,
    businessKey: Option<string>,
    status: Status,
    startedBy: string,
    startedAt: Option<Timestamp>,
    completedAt: Option<Timestamp>)

  /** The name written to the `status` column. */
  function StatusName(s: Status): string {
    match s
    case ACTIVE => "ACTIVE"
    case COMPLETED => "COMPLETED"
    case SUSPENDED => "SUSPENDED"
    case TERMINATED => "TERMINATED"
  }

  /** Reading the `status` column back; any other text is not a status. */
  function ParseStatus(name: string): (r: Option<Status>)
    ensures r.Some? ==> StatusName(r.value) == name
  {
    if name == "ACTIVE" then Some(ACTIVE)
    else if name == "COMPLETED" then Some(COMPLETED)
    else if name == "SUSPENDED" then Some(SUSPENDED)
    else if name == "TERMINATED" then Some(TERMINATED)
    else None
  }

  /** Every status survives the round trip through its column text, so the
      four names are pairwise distinct. */
  lemma StatusRoundTrip(s: Status)
    ensures ParseStatus(StatusName(s)) == Some(s)
  {
  }

  /** `@PrePersist onCreate`: fills `startedAt` with the current instant
      only when the object does not carry one already. */
  function OnCreate(w: WorkflowInstance, now: Timestamp): (r: WorkflowInstance)
    ensures r.startedAt.Some?
    ensures w.startedAt.Some? ==> r == w
    ensures w.startedAt.None? ==> r == w.(startedAt := Some(now))
  {
    if w.startedAt.None? then w.(startedAt := Some(now)) else w
  }

  predicate IsTerminal(s: Status) {
    s == COMPLETED || s == TERMINATED
  }

  /** A row as it sits in the table: `startedAt` filled, and `completedAt`
      set exactly when the status is terminal. */
  predicate WellFormed(w: WorkflowInstance) {
    w.startedAt.Some? && (w.completedAt.Some? <==> IsTerminal(w.status))
  }

  predicate AllWellFormed(rows: seq<WorkflowInstance>) {
    forall i | 0 <= i < |rows| :: WellFormed(rows[i])
  }

  /** An update can never move `startedAt` (`updatable = false`): the
      stored value is kept whatever the object carries. */
  function ApplyUpdate(stored: WorkflowInstance, updated: WorkflowInstance): (r: WorkflowInstance)
    ensures r.startedAt == stored.startedAt
    ensures r.(startedAt := updated.startedAt) == updated
  {
    updated.(startedAt := stored.startedAt)
  }
}
