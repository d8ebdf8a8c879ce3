/** `NotificationDelegate` (bean `notificationDelegate`): the service task
    that composes an in-app notification for a process event and records
    that it was sent. Delivery itself is only logged. */
module NotificationDelegate {
  import opened Wrappers
  import opened JavaLang
  import opened ProcessVariables

  /** The notification types with a dedicated message. */
  const KnownTypes: set<string> := {"TASK_ASSIGNED", "APPROVAL_RESULT", "PROCESS_COMPLETED", "PROCESS_ERROR"}

  /** The type used when the variable `notificationType` is null. */
  const DefaultType: string := "PROCESS_UPDATE"

  /** How `APPROVAL_RESULT` words the outcome: the approval status in lower
      case, letter for letter, or "processed" when there is none. */
  function Outcome(approvalStatus: Option<string>): (r: string)
    ensures approvalStatus.Some? ==> r == ToLowerCase(approvalStatus.value)
    ensures approvalStatus.Some? ==>
      && |r| == |approvalStatus.value|
      && forall i | 0 <= i < |r| :: r[i] == LowerChar(approvalStatus.value[i]) && !('A' <= r[i] <= 'Z')
    ensures approvalStatus.None? ==> r == "processed"
  {
    match approvalStatus
    case Some(s) => ToLowerCase(s)
    case None => "processed"
  }

  /** The message's fixed text around the instance id, by type. Every
      type outside the four known ones reads as a status change. */
  function Frame(notificationType: string, approvalStatus: Option<string>): (string, string) {
    if notificationType == "TASK_ASSIGNED" then ("A new task has been assigned to you in process ", ".")
    else if notificationType == "APPROVAL_RESULT" then ("Your request in process ", " has been " + Outcome(approvalStatus) + ".")
    else if notificationType == "PROCESS_COMPLETED" then ("Process ", " has been completed.")
    else if notificationType == "PROCESS_ERROR" then ("An error occurred in process ", ". Please review.")
    else ("Update on process ", ": status changed.")
  }

  /** `buildNotificationMessage(type, approvalStatus, processInstanceId)`:
      the sentence for the type, with the instance id substituted into its
      one `%s` slot. The message names the instance and closes with its
      type's fixed ending. */
  function BuildMessage(notificationType: string, approvalStatus: Option<string>, processInstanceId: string): (r: string)
    ensures Contains(r, processInstanceId)
    ensures EndsWith(r, Frame(notificationType, approvalStatus).1)
  {
    var (prefix, suffix) := Frame(notificationType, approvalStatus);
    ContainsInfix(prefix, processInstanceId, suffix);
    ConcatEnds(prefix + processInstanceId, suffix);
    prefix + processInstanceId + suffix
  }

  /** The approval-result message opens with the instance it is about and
      closes with the outcome: the status in lower case, or "processed"
      when there is none. */
  lemma ApprovalResultWording(approvalStatus: Option<string>, processInstanceId: string)
    ensures var m := BuildMessage("APPROVAL_RESULT", approvalStatus, processInstanceId);
      && StartsWith(m, "Your request in process " + processInstanceId)
      && (approvalStatus.Some? ==> EndsWith(m, " has been " + ToLowerCase(approvalStatus.value) + "."))
      && (approvalStatus.None? ==> EndsWith(m, " has been processed."))
  {
    var head := "Your request in process " + processInstanceId;
    var tail := " has been " + Outcome(approvalStatus) + ".";
    ConcatEnds(head, tail);
  }

  /** Every type outside the four known ones gets the status-change
      message, and only `APPROVAL_RESULT` depends on the approval status. */
  lemma UnknownTypesReadAsUpdate(notificationType: string, approvalStatus: Option<string>, processInstanceId: string)
    ensures notificationType !in KnownTypes ==>
      BuildMessage(notificationType, approvalStatus, processInstanceId) == BuildMessage(DefaultType, approvalStatus, processInstanceId)
    ensures notificationType != "APPROVAL_RESULT" ==>
      BuildMessage(notificationType, approvalStatus, processInstanceId) == BuildMessage(notificationType, None, processInstanceId)
  {
  }

  /** Messages of one type tell their instances apart: equal messages
      mean equal instance ids. */
  lemma MessageDeterminesInstance(notificationType: string, approvalStatus: Option<string>, id1: string, id2: string)
    requires BuildMessage(notificationType, approvalStatus, id1) == BuildMessage(notificationType, approvalStatus, id2)
    ensures id1 == id2
  {
    var (prefix, suffix) := Frame(notificationType, approvalStatus);
    InfixCancels(prefix, id1, id2, suffix);
  }

  /** What one run produced: the variables afterwards, and the message and
      type that were logged for the recipient. */
  datatype Notification = Notification(
    variables: Variables,
    notificationType: string,
    recipient: Option<string>,
    message: string)

  /** `execute(execution)`, with `now` standing for
      `System.currentTimeMillis()`. The three casts come first; a mistyped
      variable aborts the run with nothing recorded. */
  function Execute(ex: Execution, now: Timestamp): (r: Result<Notification, CastError>)
    ensures r.Failure? <==>
      || ReadString(ex.variables, "notificationType").Failure?
      || ReadString(ex.variables, "notificationRecipient").Failure?
      || ReadString(ex.variables, "approvalStatus").Failure?
    ensures r.Success? ==>
      var vars := ex.variables;
      var n := r.value;
      && (Get(vars, "notificationType") == Null ==> n.notificationType == DefaultType)
      && (Get(vars, "notificationType") != Null ==> Get(vars, "notificationType") == Str(n.notificationType))
      && FromString(n.recipient) == Get(vars, "notificationRecipient")
      && n.message == BuildMessage(n.notificationType, ReadString(vars, "approvalStatus").value, ex.processInstanceId)
      && n.variables.Keys == vars.Keys + {"lastNotificationSent", "lastNotificationType", "notificationStatus"}
      && Get(n.variables, "lastNotificationSent") == Num(now)
      && Get(n.variables, "lastNotificationType") == Str(n.notificationType)
      && Get(n.variables, "notificationStatus") == Str("SENT")
      && (forall k | k in vars && k !in {"lastNotificationSent", "lastNotificationType", "notificationStatus"} ::
            n.variables[k] == vars[k])
  {
    var vars := ex.variables;
    var notificationType :- ReadString(vars, "notificationType");
    var recipient :- ReadString(vars, "notificationRecipient");
    var approvalStatus :- ReadString(vars, "approvalStatus");
    var kind := notificationType.GetOr(DefaultType);
    var message := BuildMessage(kind, approvalStatus, ex.processInstanceId);
    var vars' := vars["lastNotificationSent" := Num(now)]
                     ["lastNotificationType" := Str(kind)]
                     ["notificationStatus" := Str("SENT")];
    Success(Notification(vars', kind, recipient, message))
  }

  /** A missing type and an explicit `PROCESS_UPDATE` give the same
      notification. */
  lemma NullTypeIsProcessUpdate(ex: Execution, now: Timestamp)
    requires Get(ex.variables, "notificationType") == Null
    ensures var ex' := ex.(variables := ex.variables["notificationType" := Str(DefaultType)]);
      Execute(ex, now).Success? ==>
        && Execute(ex', now).Success?
        && Execute(ex', now).value.message == Execute(ex, now).value.message
        && Execute(ex', now).value.notificationType == Execute(ex, now).value.notificationType
  {
    var vars' := ex.variables["notificationType" := Str(DefaultType)];
    assert Get(vars', "notificationRecipient") == Get(ex.variables, "notificationRecipient");
    assert Get(vars', "approvalStatus") == Get(ex.variables, "approvalStatus");
  }
}
