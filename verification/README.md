# Workflow engine control plane: lifecycle shadow state, delegates, validation

This project models the core of a Spring Boot process-automation service built on an external BPMN engine (Camunda), and proves properties of that model in Dafny.

- **Lifecycle shadow state.** `ProcessService` and `TaskService` start, inspect, terminate, claim and complete process instances and tasks on the engine. They mirror each step in two local tables, `workflow_instances` (`WorkflowInstance`) and `task_assignments` (`TaskAssignment`).
  - The engine is an abstract snapshot (module `Engine`): the latest and the superseded versions of each definition, deployments, live instances, historic instances, open tasks with assignee and candidate users, and comments.
  - The engine also keeps a log of the mutating calls it received, so the chosen Java overload is observable.
  - Every service operation is a pure function from a `Tracking.State` (engine plus both tables) to the next state, paired with the return value or the thrown exception.
- **BPMN delegates.** `ApprovalDelegate`, `NotificationDelegate` and `EmailDelegate` each turn the process variables into variable updates and messages. A cast of a variable to the wrong type is a `ClassCastException`, modelled as a `Failure`.
- **BPMN validation.** `WorkflowDesignerService.validateBpmn` and `exportBpmn`: substring checks on the model XML and the shaping of the result map.
- **User lookup.** `UserServiceImpl` of the small demo service: the seeded in-memory list, lookup by id and search by name.
- **Priority badge.** `getPriorityLabel` and `getPriorityColor` of the task inbox page.

Conventions:
- Java `null` is `Option.None`.
- A thrown exception is `Result.Failure`.
- Instants (`LocalDateTime.now()`, `System.currentTimeMillis()`) are a `Timestamp` parameter named `now`.
- Ids the engine or the database generates are parameters (`newId`, `newDeploymentId`). They are taken to be fresh, as the engine's id generator makes them; a caller that passes the id of an existing instance to a start gets that instance replaced.
- A shadow row is identified by its position in the table.
- The authenticated principal is an `Option<string>` parameter, `None` when the security context yields nothing.
- The mail transport's setting and outcome are parameters.
- The DTO mapper is a function parameter.
- Engine query answers that `getUserTasks` receives are method inputs, tied to the engine by `TaskService.AnswersQueries`.

Modules, one per file: `Wrappers`, `Seqs` (first index satisfying a predicate), `JavaLang` (whitespace, `isBlank`, `contains`, `toLowerCase`, how `null` prints), `ProcessVariables`, `WorkflowInstanceEntity`, `TaskAssignmentEntity`, `Engine`, `Tracking`, `ProcessService`, `TaskService`, `ApprovalDelegate`, `NotificationDelegate`, `EmailDelegate`, `WorkflowDesignerService`, `UserService`, `TaskInbox`.

## Model

| member | source | states |
|---|---|---|
| WorkflowInstanceEntity.StatusRoundTrip | src/main/java/com/workflow/engine/entity/WorkflowInstance.java:17-22 | The four statuses are stored by name and read back unchanged. |
| WorkflowInstanceEntity.OnCreate | src/main/java/com/workflow/engine/entity/WorkflowInstance.java:47-50 | After `onCreate` `startedAt` is set. An existing value is kept; only a missing one becomes `now`. |
| WorkflowInstanceEntity.ApplyUpdate | src/main/java/com/workflow/engine/entity/WorkflowInstance.java:41-42 | An update never moves `startedAt`. Every other field takes the updated value. |
| TaskAssignmentEntity.StatusRoundTrip | src/main/java/com/workflow/engine/entity/TaskAssignment.java:17-21 | The three statuses are stored by name and read back unchanged. |
| TaskAssignmentEntity.OnCreate | src/main/java/com/workflow/engine/entity/TaskAssignment.java:50-57 | After `onCreate` `createdAt` is set. An existing value is kept; only a missing one becomes `now`. |
| TaskAssignmentEntity.ApplyUpdate | src/main/java/com/workflow/engine/entity/TaskAssignment.java:47-48 | An update never moves `createdAt`. Every other field takes the updated value. |
| ProcessService.DeployProcess | src/main/java/com/workflow/engine/service/ProcessService.java:40-50 | The deployment is named `deploymentName` when non-null, otherwise the file's original name. It is appended with the file's name and the new deployment id is returned. Live instances, history and tasks are untouched. |
| ProcessService.DeployKeepsInstances | src/main/java/com/workflow/engine/service/ProcessService.java:40-50 | After a deployment every status query and every active-instance listing answers as before, the task table is the same, and the live store stays keyed by instance id. |
| ProcessService.CurrentUser | src/main/java/com/workflow/engine/service/ProcessService.java:197-203 | The principal's name, or "system" when the lookup yields nothing. |
| ProcessService.StartProcess | src/main/java/com/workflow/engine/service/ProcessService.java:57-81 | Exactly one start call is made. The business-key overload is used iff the key is non-null and not blank, the other overload otherwise. Null variables become the empty map. The start fails iff no latest definition has the key or that definition is suspended, and then no row is written. On success the instance belongs to that definition, and one ACTIVE row is appended: key = processKey, businessKey unchanged (even when blank), startedBy = the resolved user, startedAt = now, no completedAt. The engine's instance is returned. |
| ProcessService.GetProcessStatus | src/main/java/com/workflow/engine/service/ProcessService.java:87-125 | A live hit returns a running view: instance id, definition id, suspension flag, live variables, business key. Otherwise a historic hit returns an ended view: ids, business key, start, end, duration, delete reason. Null iff neither store knows the id. |
| ProcessService.LiveWins | src/main/java/com/workflow/engine/service/ProcessService.java:89-103 | While the live store knows the instance, history has no influence on the answer, and the answer is not ended. |
| ProcessService.GetAllProcessDefinitions | src/main/java/com/workflow/engine/service/ProcessService.java:131-160 | One summary per latest definition, in engine order. Each copies id, key, name, version, deployment id, description and suspension flag, and counts the definition's unsuspended live instances. |
| ProcessService.GetActiveInstances | src/main/java/com/workflow/engine/service/ProcessService.java:162-179 | Exactly the unsuspended live instances of the definition, each with its variables. |
| ProcessService.ActiveListMatchesCount | src/main/java/com/workflow/engine/service/ProcessService.java:151-178 | With the live store keyed by instance id, a definition's active-instance listing has exactly as many entries as the active count its summary reports. |
| ProcessService.SummaryCount | src/main/java/com/workflow/engine/service/ProcessService.java:168-178 | Distinct live instances give distinct summaries: as many summaries as instance ids. |
| ProcessService.StartCountsAsActive | src/main/java/com/workflow/engine/service/ProcessService.java:151-155 | A successful start with a fresh id raises its definition's active count by one (a start that stops at its first wait state). |
| ProcessService.FirstKeyed | src/main/java/com/workflow/engine/service/ProcessService.java:185-187 | The first row whose business key is non-null; none iff every key is null. |
| ProcessService.TerminateFirstKeyed | src/main/java/com/workflow/engine/service/ProcessService.java:185-192 | The first row with a non-null business key becomes TERMINATED with completedAt = now. All other rows are unchanged. Without such a row the table is unchanged. |
| ProcessService.TerminateProcess | src/main/java/com/workflow/engine/service/ProcessService.java:182-195 | The delete call (id, reason) is made first and unconditionally. It fails iff the instance is not live, and then no row changes. On success no open task of the instance remains, and the table is reconciled by `TerminateFirstKeyed`. |
| ProcessService.StartKeepsRowsWellFormed | src/main/java/com/workflow/engine/service/ProcessService.java:69-77 | Starting keeps every row well formed: startedAt set, and completedAt set iff the status is terminal. |
| ProcessService.TerminateKeepsRowsWellFormed | src/main/java/com/workflow/engine/service/ProcessService.java:188-191 | Terminating keeps every row well formed. |
| ProcessService.StartKeepsLiveKeyed | src/main/java/com/workflow/engine/service/ProcessService.java:60-66 | Starting keeps the live store keyed by instance id. |
| ProcessService.TerminateKeepsLiveKeyed | src/main/java/com/workflow/engine/service/ProcessService.java:182-183 | Terminating keeps the live store keyed by instance id. |
| ProcessService.StartedInstanceIsRunning | src/main/java/com/workflow/engine/service/ProcessService.java:57-103 | Right after a start that stops at its first wait state, the status query reports the instance running, unsuspended, with the variables it was started with. |
| ProcessService.TerminatedInstanceIsEnded | src/main/java/com/workflow/engine/service/ProcessService.java:106-124 | Right after a terminate, the status query reports the instance ended with the given delete reason. |
| ProcessService.ApprovalLifecycle | src/main/java/com/workflow/engine/service/ProcessService.java:57-195 | Start with "ORDER-001" uses the business-key overload and writes an ACTIVE row for "alice". The status query reports it running. Terminate sends ("p-1", "done") and the row ends TERMINATED with completedAt set. |
| ProcessService.BlankKeyStartsWithoutKey | src/main/java/com/workflow/engine/service/ProcessService.java:60-76 | A blank key takes the key-only overload, yet the row keeps the blank key. With no principal the row names "system". |
| ProcessService.TerminateMisTargets | src/main/java/com/workflow/engine/service/ProcessService.java:185-192 | With two keyed rows, terminating the second instance terminates the first instance's row and leaves its own row ACTIVE. |
| ProcessService.TerminateProcessMatched | src/main/java/com/workflow/engine/service/ProcessService.java:182-195 | Corrected terminate: same delete call and failure rule. Only the first ACTIVE row carrying the instance's own business key becomes TERMINATED with completedAt = now; every other row is unchanged, and without such a row (or without a key) the table is unchanged. |
| ProcessService.TerminateMatching | src/main/java/com/workflow/engine/service/ProcessService.java:185-192 | Corrected reconciliation: only the first ACTIVE row with the given key becomes TERMINATED with completedAt = now. Every other row is unchanged; with no key or no such row the table is unchanged. |
| ProcessService.MatchedTerminateHitsTheInstance | src/main/java/com/workflow/engine/service/ProcessService.java:185-192 | On the two-order table the corrected terminate hits the second order's row only. |
| ProcessService.MatchedTerminateKeepsRowsWellFormed | src/main/java/com/workflow/engine/service/ProcessService.java:188-191 | The corrected terminate keeps every row well formed. |
| ProcessService.MatchedTerminatedInstanceIsEnded | src/main/java/com/workflow/engine/service/ProcessService.java:182-183 | After the corrected terminate the instance reports ended with its reason. |
| TaskService.MapTask | src/main/java/com/workflow/engine/service/TaskService.java:165-178 | A view copies the task's id and assignee and carries the given claimed flag. |
| TaskService.DedupAppend | src/main/java/com/workflow/engine/service/TaskService.java:43-56 | Deduplicating a concatenation equals deduplicating the first part, then the second part against the ids already seen. |
| TaskService.DedupIds | src/main/java/com/workflow/engine/service/TaskService.java:43-56 | The ids deduplication keeps are exactly the input ids not already seen. |
| TaskService.DedupDistinct | src/main/java/com/workflow/engine/service/TaskService.java:43-56 | Deduplication never keeps two entries with the same id. |
| TaskService.DedupProperties | src/main/java/com/workflow/engine/service/TaskService.java:43-56 | Deduplication yields distinct ids. It covers exactly the input ids not already seen, and each kept entry is an input entry. |
| TaskService.Dedup | src/main/java/com/workflow/engine/service/TaskService.java:43-56 | The kept entries are no more than the input, and each is an input entry whose id was not already seen. |
| TaskService.GetUserTasks | src/main/java/com/workflow/engine/service/TaskService.java:29-59 | No id is reported twice. Every assigned or candidate id appears. Assigned entries come first in query order, then candidate-only entries in query order. isClaimed holds iff the id is among the assigned tasks. Each entry is the view of a queried task. |
| TaskService.AppendUnseen | src/main/java/com/workflow/engine/service/TaskService.java:46-56 | One pass of the loop appends, after what is there, exactly the deduplication of the tasks' views against the ids already seen; the id set grows by the pass's task ids. |
| TaskService.AssignedViewIsHeld | src/main/java/com/workflow/engine/service/TaskService.java:31-35 | Against faithful answers, a view from the assignee query is of an engine task assigned to the user. |
| TaskService.CandidateViewIsClaimable | src/main/java/com/workflow/engine/service/TaskService.java:37-41 | Against faithful answers, a view from the candidate query is unclaimed and of an unassigned engine task naming the user as candidate; the user's claim of it succeeds iff the task's instance is not suspended. |
| TaskService.MergeProperties | src/main/java/com/workflow/engine/service/TaskService.java:46-56 | The two-pass merge equals one deduplication of both lists. It has distinct ids, the union of ids, and claimed flags set exactly for assigned ids. |
| TaskService.InboxMatchesEngine | src/main/java/com/workflow/engine/service/TaskService.java:29-59 | Against faithful query answers: every reported task belongs to the user or lists the user as candidate. A task reported claimed is assigned to the user. A task reported unclaimed is unassigned, and the user's claim of it succeeds iff its instance is not suspended. No task assigned to the user, or unassigned and claimable by the user, is missing. |
| TaskService.GetTaskDetails | src/main/java/com/workflow/engine/service/TaskService.java:61-73 | Null iff the task is unknown. Otherwise the task's view, claimed iff it has an assignee, with its variables. |
| TaskService.ClaimTask | src/main/java/com/workflow/engine/service/TaskService.java:111-134 | The claim call comes first. It is refused iff the task is unknown, belongs to a suspended instance, or is held by someone else; then no row is written. On success the user is the assignee and exactly one CLAIMED row is appended, copying the task's instance, name and due date. Existing rows are untouched. |
| TaskService.CompleteFirstClaimed | src/main/java/com/workflow/engine/service/TaskService.java:99-106 | Only the first CLAIMED row of the user for the task becomes COMPLETED. All other rows are kept; with no such row the table is unchanged. |
| TaskService.FirstClaimed | src/main/java/com/workflow/engine/service/TaskService.java:99-102 | The first CLAIMED row of the user for the task; none iff there is no such row, and no earlier row matches. |
| TaskService.CompleteTask | src/main/java/com/workflow/engine/service/TaskService.java:75-109 | An unknown task fails with "Task not found" and nothing changes. A task of a suspended instance fails at its first engine call (the comment when there is text, else the completion), leaving no comment, the task open and the table unchanged. Otherwise a comment is logged and recorded on the task's instance iff it has text. The variables overload is used iff the variables are non-null and non-empty, the no-variables overload otherwise. The task is gone afterwards and the table is reconciled by `CompleteFirstClaimed`. |
| TaskService.SuspendedTaskIsRefused | src/main/java/com/workflow/engine/service/TaskService.java:81-113 | With the task's instance suspended, claiming fails and writes no row, and completing with a comment fails and leaves no comment, the task open and no row. |
| TaskService.ClaimAddsClaimedRow | src/main/java/com/workflow/engine/service/TaskService.java:120-131 | Each successful claim adds one CLAIMED row for the pair, even if one exists already. |
| TaskService.ClaimTwiceKeepsTwoRows | src/main/java/com/workflow/engine/service/TaskService.java:111-134 | Claiming the same task twice leaves two more CLAIMED rows. |
| TaskService.CompleteClosesOneClaim | src/main/java/com/workflow/engine/service/TaskService.java:99-106 | A completion closes exactly one of the user's CLAIMED rows for the task when there is one, and none otherwise. |
| TaskService.ClaimShowsInDetails | src/main/java/com/workflow/engine/service/TaskService.java:61-73 | After a successful claim the task's details exist and report it claimed, with the claiming user as assignee. |
| TaskService.CompletedTaskHasNoDetails | src/main/java/com/workflow/engine/service/TaskService.java:61-109 | After a successful completion the task's details are null. |
| TaskService.TerminateClosesTasks | src/main/java/com/workflow/engine/service/TaskService.java:61-109 | After a successful terminate, an open task of that instance has null details and completing it fails with "Task not found". |
| ApprovalDelegate.Execute | src/main/java/com/workflow/engine/bpmn/ApprovalDelegate.java:17-53 | Fails iff a cast fails, naming the first bad one of approved, approver, approvalComment. A missing decision writes only approvalStatus PENDING. Approval writes APPROVED, approvalTimestamp = now and nextAction "proceed". Rejection writes REJECTED, rejectionTimestamp = now, rejectionReason = the comment and nextAction "revise". No other variable changes. |
| ApprovalDelegate.OneTimestampPerDecision | src/main/java/com/workflow/engine/bpmn/ApprovalDelegate.java:36-50 | An approval stamps approvalTimestamp with now and leaves rejectionTimestamp as it was; a rejection does the reverse; an undecided run leaves both as they were. |
| ApprovalDelegate.ExecuteIdempotent | src/main/java/com/workflow/engine/bpmn/ApprovalDelegate.java:25-52 | The run never writes what it reads. Re-running at the same instant changes nothing, and at a later instant gives the same status and next action. |
| ApprovalDelegate.ApproverOnlyLogged | src/main/java/com/workflow/engine/bpmn/ApprovalDelegate.java:26-48 | Whoever the approver is, the run writes the same variables. |
| NotificationDelegate.Execute | src/main/java/com/workflow/engine/bpmn/NotificationDelegate.java:18-46 | Fails iff one of the three casts fails. A null type becomes PROCESS_UPDATE. The message is built for the effective type. lastNotificationSent = now, lastNotificationType = the effective type, notificationStatus = "SENT". No other variable changes. |
| NotificationDelegate.ApprovalResultWording | src/main/java/com/workflow/engine/bpmn/NotificationDelegate.java:54-58 | The APPROVAL_RESULT message starts with "Your request in process " and the instance id, and ends with " has been " and the lower-cased status, or " has been processed." when the status is null. |
| NotificationDelegate.UnknownTypesReadAsUpdate | src/main/java/com/workflow/engine/bpmn/NotificationDelegate.java:65-67 | Any type other than the four known ones gets the status-change message. Only APPROVAL_RESULT depends on the approval status. |
| NotificationDelegate.MessageDeterminesInstance | src/main/java/com/workflow/engine/bpmn/NotificationDelegate.java:48-69 | Equal messages of one type mean equal instance ids. |
| NotificationDelegate.NullTypeIsProcessUpdate | src/main/java/com/workflow/engine/bpmn/NotificationDelegate.java:31-33 | A null type and an explicit PROCESS_UPDATE give the same type and message. |
| NotificationDelegate.BuildMessage | src/main/java/com/workflow/engine/bpmn/NotificationDelegate.java:48-69 | Every message contains the process instance id and ends with its type's fixed ending. |
| NotificationDelegate.Outcome | src/main/java/com/workflow/engine/bpmn/NotificationDelegate.java:54-58 | The approval status lower-cased letter by letter (same length, each character lowered, no upper-case letter left); "processed" when the status is null. |
| EmailDelegate.DefaultSubjectNames | src/main/java/com/workflow/engine/bpmn/EmailDelegate.java:86-93 | The default subject contains the instance id, and the approval status when present. |
| EmailDelegate.DefaultSubject | src/main/java/com/workflow/engine/bpmn/EmailDelegate.java:86-93 | With a status the subject is an update subject ("Workflow Update: Request ...") ending in " - " + the status; without one it is the notification subject ending in the instance id. |
| EmailDelegate.BodyTextLayout | src/main/java/com/workflow/engine/bpmn/EmailDelegate.java:96-115 | The default body starts with the header and ends with the automated-message line. It contains the instance, definition and current-activity lines, and the Status and Comment lines when those values are present. |
| EmailDelegate.DefaultBody | src/main/java/com/workflow/engine/bpmn/EmailDelegate.java:96-115 | Fails iff approvalStatus or approvalComment is mistyped. Otherwise the body assembled from the values read, with the layout above. |
| EmailDelegate.StatusLineOnlyWhenPresent | src/main/java/com/workflow/engine/bpmn/EmailDelegate.java:103-106 | The body with status s is the body without a status with exactly "Status: s" and a newline inserted after the fixed lines; nothing else differs. |
| EmailDelegate.CommentLineOnlyWhenPresent | src/main/java/com/workflow/engine/bpmn/EmailDelegate.java:108-111 | The body with comment c is the body without a comment with exactly "Comment: c" and a newline inserted before the closing line; nothing else differs. |
| EmailDelegate.ExecutionLinesContain | src/main/java/com/workflow/engine/bpmn/EmailDelegate.java:99-101 | The instance, definition and current-activity lines each occur in the fixed part of the body. |
| EmailDelegate.ResolveSubject | src/main/java/com/workflow/engine/bpmn/EmailDelegate.java:49-52 | A subject with text is kept. Otherwise the default subject built from approvalStatus, which fails iff that cast fails. |
| EmailDelegate.ResolveBody | src/main/java/com/workflow/engine/bpmn/EmailDelegate.java:55-57 | The default body is used iff the body has no text and no template is named. Otherwise the body is kept as given, null or blank included. |
| EmailDelegate.Deliver | src/main/java/com/workflow/engine/bpmn/EmailDelegate.java:62-76 | DISABLED when sending is off; otherwise SENT with emailSentAt = now, or FAILED with emailError = the exception message. Only emailStatus, emailSentAt and emailError can differ. |
| EmailDelegate.Execute | src/main/java/com/workflow/engine/bpmn/EmailDelegate.java:29-77 | Fails iff one of the four input casts fails, or there is a recipient and a default subject or default body is built from a mistyped approvalStatus or approvalComment. Without a recipient with text: emailStatus SKIPPED, emailError "No recipient specified", nothing sent. With one, the variables are those `Deliver` writes, and a sent message goes to the given recipient with the resolved subject. |
| EmailDelegate.StatusByCase | src/main/java/com/workflow/engine/bpmn/EmailDelegate.java:40-76 | SKIPPED iff there is no recipient. DISABLED iff sending is off. SENT (with emailSentAt = now) iff the transport delivered. FAILED (with emailError = the exception message) iff it threw. A message is handed over iff there is a recipient and sending is on. |
| EmailDelegate.OnlyStatusVariablesChange | src/main/java/com/workflow/engine/bpmn/EmailDelegate.java:43-75 | Only emailStatus, emailSentAt and emailError can change, and emailStatus is always written. |
| EmailDelegate.TemplateKeepsBody | src/main/java/com/workflow/engine/bpmn/EmailDelegate.java:55-57 | With a template named, the message carries the process's body exactly as given. |
| EmailDelegate.MissingBodyGetsDefault | src/main/java/com/workflow/engine/bpmn/EmailDelegate.java:55-57 | With no body text and no template, the message carries the default body, which names the instance. |
| WorkflowDesignerService.ExportBpmn | src/main/java/com/workflow/engine/service/WorkflowDesignerService.java:86-110 | The XML iff the definition (any version) exists and its model stream is present and readable. A failure while reading the lines is thrown, carrying the I/O failure's text. Null for an unknown definition, a missing stream or a failing close. |
| WorkflowDesignerService.CheckXml | src/main/java/com/workflow/engine/service/WorkflowDesignerService.java:52-72 | valid iff the XML contains "startEvent" and "endEvent". hasTasks iff it contains "userTask" or "serviceTask". The single warning slot holds the end-event warning whenever the end event is missing, the start-event warning when only the start event is missing, and nothing otherwise. |
| WorkflowDesignerService.ValidateBpmn | src/main/java/com/workflow/engine/service/WorkflowDesignerService.java:30-81 | A repository exception gives "Validation error: " + message. An unknown definition gives "Process definition not found: " + id. A read failure thrown by the export gives "Validation error: " + its text. A null export gives "Could not read BPMN XML". Otherwise the checks with the id and the definition's name. |
| WorkflowDesignerService.ValidIffBothEvents | src/main/java/com/workflow/engine/service/WorkflowDesignerService.java:38-57 | valid holds iff the repository answers, the export yields XML, and it mentions both events. |
| WorkflowDesignerService.OlderVersionsValidate | src/main/java/com/workflow/engine/service/WorkflowDesignerService.java:33-36 | A superseded version is still found by its id: validating it gives the same result as when it was the latest version. |
| WorkflowDesignerService.WarningIffInvalid | src/main/java/com/workflow/engine/service/WorkflowDesignerService.java:55-72 | A checked result carries a warning iff it is invalid, and the task check affects neither. |
| UserService.GetListUsers | Test-spring-boot/src/main/java/com/example/demo/service/UserServiceImpl.java:24-30 | One DTO per stored user, in stored order. |
| UserService.GetUserById | Test-spring-boot/src/main/java/com/example/demo/service/UserServiceImpl.java:33-40 | The DTO of the first user with the id. NotFoundException iff no user has it. |
| UserService.MatchingAppend | Test-spring-boot/src/main/java/com/example/demo/service/UserServiceImpl.java:43-51 | Filtering by name distributes over concatenation, so list order is preserved. |
| UserService.SearchUser | Test-spring-boot/src/main/java/com/example/demo/service/UserServiceImpl.java:43-51 | The DTOs of the users whose name contains the keyword, in list order. |
| UserService.SearchFindsExactly | Test-spring-boot/src/main/java/com/example/demo/service/UserServiceImpl.java:45-47 | A stored user is found iff its name contains the keyword. |
| UserService.SeededIds | Test-spring-boot/src/main/java/com/example/demo/service/UserServiceImpl.java:14-21 | The seeded list holds four users with ids 1 to 4 in order. |
| UserService.SeededLookup | Test-spring-boot/src/main/java/com/example/demo/service/UserServiceImpl.java:33-40 | On the seeded list id 2 is Dao and id 5 is not found. |
| TaskInbox.PriorityLabel | frontend/src/components/TaskInbox.tsx:63-68 | Critical at 75 and above, High from 50, Medium from 25, Low below. |
| TaskInbox.PriorityColor | frontend/src/components/TaskInbox.tsx:70-75 | The four colours on the same thresholds. |
| TaskInbox.LabelAndColorAgree | frontend/src/components/TaskInbox.tsx:63-75 | Label and colour come from the same band. Two priorities share a label iff they share a colour. |
| TaskInbox.BandMonotone | frontend/src/components/TaskInbox.tsx:63-68 | A higher priority never gets a lower band. |

## Left out

- Logging, REST controllers, the JWT filter and security chain, engine configuration, and the frontend apart from the two priority functions: they hold no logic of the core.
- Real clocks, id generation, file streams and line-by-line XML reading: I/O. Instants and ids are parameters, and a model resource is given as text, as failing to read, or as failing to close.
- `@Transactional` atomicity and concurrent callers: the model is sequential. A failing engine call leaves the tables as they were, which is what a rollback gives.
- BPMN execution inside the engine: a started instance just becomes live, a deleted one moves to history, a completed task disappears. The engine's query order is not modelled. `getActiveInstances` therefore returns a set, and `getUserTasks` takes the two query answers as inputs.
- Time-zone conversion of a task's due date in `claimTask`: the due date is copied as the same abstract instant.
- `UserMapper.toUserDto` is not part of this model; the mapping is a parameter. `TaskAssignmentRepository.findByAssigneeAndStatus` is modelled as a filter of the table in storage order.
- `searchUser` with a null keyword (a `NullPointerException`) is not modelled: the keyword is a string.
- `delegateTask`, `getTaskHistory` and `importBpmn` are outside the modelled core. They are single pass-through engine calls or plain field copies.
- The unused helpers `isInRange`, `safeParseInt`, `isNotEmpty` and `getTimestamp` are not modelled.
- The `defaultFromAddress` setting of the e-mail delegate is never used by the code and is not modelled.
- `EmailDelegate.Execute`: the transport outcome is a parameter. The code's own `sendEmail` only logs and always delivers, so with that code the FAILED branch is unreachable.
- `JavaLang.ToLowerCase`: only the basic Latin letters are lowered. Locale-specific and other Unicode case mappings are not modelled.
- `TaskInbox.PriorityLabel`: a JavaScript number is a real here; NaN and the infinities are not modelled.
- `ProcessService.GetActiveInstances`: the result is a set, so the engine's list order and duplicates are not modelled.
- Process variables hold only null, booleans, strings and integral numbers; other Java objects are not modelled.
- `ProcessService.DeployProcess`: the process definitions the engine parses out of the uploaded file are not modelled; the deployment only joins the deployment list. Definitions are part of the engine snapshot given as input. The model's deployment never fails: the engine's rejection of an unparseable upload and an `IOException` from `getInputStream` are not modelled.
- `ProcessService.FirstKeyed`: `findAll()` is taken in storage order; JPA does not promise an order, so `TerminateFirstKeyed` names the first keyed row in that order.
- `ProcessService.StartCountsAsActive`: holds for a start that stops at its first wait state. A process whose start runs straight to its end, or through delegates that change variables or suspend it, is not modelled.
- `ProcessService.StartedInstanceIsRunning`: likewise only for a start that stops at its first wait state.
- `WorkflowDesignerService.ExportBpmn`: a failure while closing the stream is modelled by its outcome only (null); the stream and its buffering are not modelled.
- `Engine.Delete`: only the instance's open tasks are removed; jobs, timers and sub-process instances are not modelled.
- `TaskService.AnswersQueries`: the candidate query also matches through the user's candidate groups; groups are not modelled, so a candidate answer is stated in terms of candidate users only.
- `TaskService.CompleteTask`: a null or empty variable map makes the code call the no-variables `complete(taskId)` overload; the model follows the code, so no empty map is ever passed. On a task of a suspended instance the engine's comment call is taken to raise the error when there is a comment, as the engine refuses comments on suspended tasks; the rollback of the transaction is modelled by leaving comments, tasks and rows as they were, with only the call log recording the attempt.

## Findings

| source | as written | input that shows it | evidently intended | confidence | as-written member | corrected member |
|---|---|---|---|---|---|---|
| src/main/java/com/workflow/engine/service/ProcessService.java:185-192 | `terminateProcess` marks the first shadow row with any non-null business key as TERMINATED, whatever instance it belongs to | two ACTIVE rows "ORDER-1" (p-1) and "ORDER-2" (p-2); terminate p-2: row ORDER-1 becomes TERMINATED, row ORDER-2 stays ACTIVE | terminate the row of the instance being terminated. The table stores no instance id, so the corrected member matches on the instance's business key: the first ACTIVE row with that key. Two live instances sharing a key, and instances started with a blank key (their row keeps the key, the engine does not), can still hit the wrong row or none; only an instance-id column would fix that | not executed | ProcessService.TerminateMisTargets | ProcessService.TerminateProcessMatched |
