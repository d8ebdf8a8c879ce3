/** `EmailDelegate` (bean `emailDelegate`): the service task that sends an
    e-mail about a process, filling in a default subject and body when the
    process supplies none, and recording the delivery status in process
    variables. The mail transport is a parameter: `enabled` stands for the
    `app.email.enabled` setting (default false) and `outcome` for what the
    transport did with the message. */
module EmailDelegate {
  import opened Wrappers
  import opened JavaLang
  import opened ProcessVariables

  /** What the transport did: delivered, or threw an exception with the
      given (possibly null) message. */
  datatype SendOutcome = Delivered | Threw(message: Option<string>)

  /** The message handed to the transport; the body may be null when the
      process names a template. */
  datatype Email = Email(to: string, subject: string, body: Option<string>)

  /** The variables after the run, and the message handed to the transport
      if the run got that far with sending enabled. */
  datatype EmailRun = EmailRun(variables: Variables, attempted: Option<Email>)

  /** `buildDefaultSubject(approvalStatus, processInstanceId)`: an update
      subject ending in the status when there is one, a notification
      subject ending in the instance id otherwise. */
  function DefaultSubject(approvalStatus: Option<string>, processInstanceId: string): (r: string)
    ensures approvalStatus.Some? <==> StartsWith(r, "Workflow Update: Request ")
    ensures approvalStatus.Some? ==> EndsWith(r, " - " + approvalStatus.value)
    ensures approvalStatus.None? ==> StartsWith(r, "Workflow Notification - Process ") && EndsWith(r, processInstanceId)
  {
    match approvalStatus
    case Some(s) =>
      var head := "Workflow Update: Request " + processInstanceId;
      ConcatEnds(head, " - " + s);
      ConcatEnds("Workflow Update: Request ", processInstanceId);
      StartsExtend(head, " - " + s, "Workflow Update: Request ");
      assert head + (" - " + s) == head + " - " + s;
      head + " - " + s
    case None =>
      var r := "Workflow Notification - Process " + processInstanceId;
      ConcatEnds("Workflow Notification - Process ", processInstanceId);
      assert r[9] == 'N';
      r
  }

  /** The default subject names the instance, and the approval status when
      there is one. */
  lemma DefaultSubjectNames(approvalStatus: Option<string>, processInstanceId: string)
    ensures Contains(DefaultSubject(approvalStatus, processInstanceId), processInstanceId)
    ensures approvalStatus.Some? ==> Contains(DefaultSubject(approvalStatus, processInstanceId), approvalStatus.value)
  {
    match approvalStatus
    case Some(s) =>
      var prefix := "Workflow Update: Request ";
      var sep := " - ";
      ContainsInfix(prefix, processInstanceId, sep + s);
      assert prefix + processInstanceId + sep + s == prefix + processInstanceId + (sep + s);
      ContainsInfix(prefix + processInstanceId + sep, s, "");
      assert prefix + processInstanceId + sep + s + "" == prefix + processInstanceId + sep + s;
    case None =>
      ContainsInfix("Workflow Notification - Process ", processInstanceId, "");
      assert "Workflow Notification - Process " + processInstanceId + ""
          == "Workflow Notification - Process " + processInstanceId;
  }

  const BodyHeader: string := "Workflow Engine Notification\n\n"
  const BodyFooter: string := "\nThis is an automated message from the Workflow Engine."

  /** An optional `caption: value` line, present only for a non-null value. */
  function OptionalLine(caption: string, value: Option<string>): string {
    match value
    case Some(v) => caption + v + "\n"
    case None => ""
  }

  /** The three fixed lines after the header: the instance, the
      definition, and the current activity's name (printed as "null" when
      it has none), the last followed by a blank line. */
  function InstanceLine(processInstanceId: string): string {
    "Process Instance: " + processInstanceId + "\n"
  }

  function DefinitionLine(processDefinitionId: string): string {
    "Process Definition: " + processDefinitionId + "\n"
  }

  function ActivityLine(currentActivityName: Option<string>): string {
    "Current Activity: " + Text(currentActivityName) + "\n\n"
  }

  function ExecutionLines(ex: Execution): string {
    InstanceLine(ex.processInstanceId) + DefinitionLine(ex.processDefinitionId) + ActivityLine(ex.currentActivityName)
  }

  /** Each of the three fixed lines occurs in them. */
  lemma ExecutionLinesContain(ex: Execution)
    ensures Contains(ExecutionLines(ex), InstanceLine(ex.processInstanceId))
    ensures Contains(ExecutionLines(ex), DefinitionLine(ex.processDefinitionId))
    ensures Contains(ExecutionLines(ex), ActivityLine(ex.currentActivityName))
  {
    var i := InstanceLine(ex.processInstanceId);
    var d := DefinitionLine(ex.processDefinitionId);
    var a := ActivityLine(ex.currentActivityName);
    assert OccursAt(i, i, 0);
    assert OccursAt(d, d, 0);
    assert OccursAt(a, a, 0);
    ContainsLeft(i, d, i);
    ContainsLeft(i + d, a, i);
    ContainsRight(i, d, d);
    ContainsLeft(i + d, a, d);
    ContainsRight(i + d, a, a);
  }

  /** The text `buildDefaultBody` assembles, the status and comment lines
      present only for non-null values. */
  function BodyText(ex: Execution, approvalStatus: Option<string>, comment: Option<string>): string {
    BodyHeader + ExecutionLines(ex) + OptionalLine("Status: ", approvalStatus)
    + OptionalLine("Comment: ", comment) + BodyFooter
  }

  /** `buildDefaultBody(execution)`: reads (and casts) `approvalStatus` and
      `approvalComment`. */
  function DefaultBody(ex: Execution): (r: Result<string, CastError>)
    ensures r.Failure? <==>
      ReadString(ex.variables, "approvalStatus").Failure? || ReadString(ex.variables, "approvalComment").Failure?
    ensures r.Success? ==>
      && r.value == BodyText(ex, ReadString(ex.variables, "approvalStatus").value,
                             ReadString(ex.variables, "approvalComment").value)
      && StartsWith(r.value, BodyHeader)
      && EndsWith(r.value, BodyFooter)
      && Contains(r.value, InstanceLine(ex.processInstanceId))
      && Contains(r.value, DefinitionLine(ex.processDefinitionId))
      && Contains(r.value, ActivityLine(ex.currentActivityName))
      && (Get(ex.variables, "approvalStatus").Str? ==>
            Contains(r.value, "Status: " + Get(ex.variables, "approvalStatus").s + "\n"))
      && (Get(ex.variables, "approvalComment").Str? ==>
            Contains(r.value, "Comment: " + Get(ex.variables, "approvalComment").s + "\n"))
  {
    var approvalStatus :- ReadString(ex.variables, "approvalStatus");
    var comment :- ReadString(ex.variables, "approvalComment");
    BodyTextLayout(ex, approvalStatus, comment);
    Success(BodyText(ex, approvalStatus, comment))
  }

  /** In a five-part concatenation the first part leads, the last part
      trails, and the middle parts occur. */
  lemma FivePartLayout(h: string, l: string, s: string, c: string, f: string)
    ensures var t := h + l + s + c + f;
      && StartsWith(t, h) && EndsWith(t, f)
      && Contains(t, s) && Contains(t, c)
  {
    var x := h + l;
    var y := x + s;
    var z := y + c;
    ConcatEnds(h, l);
    StartsExtend(x, s, h);
    StartsExtend(y, c, h);
    StartsExtend(z, f, h);
    ConcatEnds(z, f);
    assert OccursAt(s, s, 0);
    ContainsRight(x, s, s);
    ContainsLeft(y, c, s);
    ContainsLeft(z, f, s);
    assert OccursAt(c, c, 0);
    ContainsRight(y, c, c);
    ContainsLeft(z, f, c);
  }

  /** Whatever the second part contains, a five-part concatenation
      contains. */
  lemma SecondPartContained(h: string, l: string, s: string, c: string, f: string, piece: string)
    requires Contains(l, piece)
    ensures Contains(h + l + s + c + f, piece)
  {
    ContainsRight(h, l, piece);
    ContainsLeft(h + l, s, piece);
    ContainsLeft(h + l + s, c, piece);
    ContainsLeft(h + l + s + c, f, piece);
  }

  /** Where the pieces of the default body sit: the header leads, the
      footer trails, the three fixed lines occur, and so does each optional
      line that is present. */
  lemma BodyTextLayout(ex: Execution, approvalStatus: Option<string>, comment: Option<string>)
    ensures var t := BodyText(ex, approvalStatus, comment);
      && StartsWith(t, BodyHeader)
      && EndsWith(t, BodyFooter)
      && Contains(t, InstanceLine(ex.processInstanceId))
      && Contains(t, DefinitionLine(ex.processDefinitionId))
      && Contains(t, ActivityLine(ex.currentActivityName))
      && (approvalStatus.Some? ==> Contains(t, "Status: " + approvalStatus.value + "\n"))
      && (comment.Some? ==> Contains(t, "Comment: " + comment.value + "\n"))
  {
    var h, l, st, c, f := BodyHeader, ExecutionLines(ex), OptionalLine("Status: ", approvalStatus),
                          OptionalLine("Comment: ", comment), BodyFooter;
    FivePartLayout(h, l, st, c, f);
    ExecutionLinesContain(ex);
    SecondPartContained(h, l, st, c, f, InstanceLine(ex.processInstanceId));
    SecondPartContained(h, l, st, c, f, DefinitionLine(ex.processDefinitionId));
    SecondPartContained(h, l, st, c, f, ActivityLine(ex.currentActivityName));
  }

  /** Splitting a concatenation at the length of its first part. */
  lemma SplitAt(a: string, b: string)
    ensures (a + b)[..|a|] == a && (a + b)[|a|..] == b
  {
  }

  /** The status line is there only for a status: the body with status `s`
      is the body without one, with exactly "Status: s" and a newline
      inserted after the fixed lines. */
  lemma StatusLineOnlyWhenPresent(ex: Execution, s: string, comment: Option<string>)
    ensures var without := BodyText(ex, None, comment);
            var k := |BodyHeader| + |ExecutionLines(ex)|;
      && k <= |without|
      && BodyText(ex, Some(s), comment) == without[..k] + ("Status: " + s + "\n") + without[k..]
  {
    var a := BodyHeader + ExecutionLines(ex);
    var q := OptionalLine("Comment: ", comment) + BodyFooter;
    var line := "Status: " + s + "\n";
    assert BodyText(ex, None, comment) == a + q;
    SplitAt(a, q);
    assert BodyText(ex, Some(s), comment) == a + line + q;
  }

  /** Likewise the comment line is there only for a comment: it is
      inserted just before the footer. */
  lemma CommentLineOnlyWhenPresent(ex: Execution, approvalStatus: Option<string>, c: string)
    ensures var without := BodyText(ex, approvalStatus, None);
            var k := |without| - |BodyFooter|;
      && 0 <= k
      && BodyText(ex, approvalStatus, Some(c)) == without[..k] + ("Comment: " + c + "\n") + without[k..]
  {
    var a := BodyHeader + ExecutionLines(ex) + OptionalLine("Status: ", approvalStatus);
    var line := "Comment: " + c + "\n";
    assert BodyText(ex, approvalStatus, None) == a + BodyFooter;
    SplitAt(a, BodyFooter);
    assert BodyText(ex, approvalStatus, Some(c)) == a + line + BodyFooter;
  }

  /** The subject actually used: the process's own when it has text,
      otherwise the default, which reads (and casts) `approvalStatus`. */
  function ResolveSubject(ex: Execution, subject: Option<string>): (r: Result<string, CastError>)
    ensures HasText(subject) ==> r == Success(subject.value)
    ensures !HasText(subject) ==>
      && (r.Failure? <==> ReadString(ex.variables, "approvalStatus").Failure?)
      && (r.Success? ==> r.value == DefaultSubject(ReadString(ex.variables, "approvalStatus").value, ex.processInstanceId))
  {
    if HasText(subject) then Success(subject.value)
    else
      var approvalStatus :- ReadString(ex.variables, "approvalStatus");
      Success(DefaultSubject(approvalStatus, ex.processInstanceId))
  }

  /** The body actually used: the default only when the process supplies
      neither a body with text nor a template name; otherwise the body as
      given, blank or null included. */
  function ResolveBody(ex: Execution, body: Option<string>, template: Option<string>): (r: Result<Option<string>, CastError>)
    ensures HasText(body) || template.Some? ==> r == Success(body)
    ensures !HasText(body) && template.None? ==>
      && (r.Failure? <==> DefaultBody(ex).Failure?)
      && (r.Success? ==> r.value == Some(DefaultBody(ex).value))
  {
    if !HasText(body) && template.None? then
      var text :- DefaultBody(ex);
      Success(Some(text))
    else Success(body)
  }

  /** The variables the delivery writes: DISABLED when sending is off;
      otherwise SENT with the sending time, or FAILED with the exception's
      message. Nothing else is touched. */
  function Deliver(vars: Variables, enabled: bool, outcome: SendOutcome, now: Timestamp): (r: Variables)
    ensures r.Keys <= vars.Keys + {"emailStatus", "emailSentAt", "emailError"} && "emailStatus" in r
    ensures forall k | k !in {"emailStatus", "emailSentAt", "emailError"} :: Get(r, k) == Get(vars, k)
    ensures !enabled ==> Get(r, "emailStatus") == Str("DISABLED") && Get(r, "emailSentAt") == Get(vars, "emailSentAt")
    ensures enabled && outcome.Delivered? ==> Get(r, "emailStatus") == Str("SENT") && Get(r, "emailSentAt") == Num(now)
    ensures enabled && outcome.Threw? ==>
      && Get(r, "emailStatus") == Str("FAILED") && Get(r, "emailError") == FromString(outcome.message)
      && Get(r, "emailSentAt") == Get(vars, "emailSentAt")
  {
    if !enabled then vars["emailStatus" := Str("DISABLED")]
    else match outcome
      case Delivered => vars["emailStatus" := Str("SENT")]["emailSentAt" := Num(now)]
      case Threw(message) => vars["emailStatus" := Str("FAILED")]["emailError" := FromString(message)]
  }

  /** The four casts at the start of `execute`. */
  predicate InputsCastable(vars: Variables) {
    && ReadString(vars, "emailTo").Success?
    && ReadString(vars, "emailSubject").Success?
    && ReadString(vars, "emailBody").Success?
    && ReadString(vars, "emailTemplate").Success?
  }

  /** `execute(execution)`, with `now` standing for
      `System.currentTimeMillis()`. */
  function Execute(ex: Execution, enabled: bool, outcome: SendOutcome, now: Timestamp): (r: Result<EmailRun, CastError>)
    ensures r.Failure? <==>
      || !InputsCastable(ex.variables)
      || (&& HasText(ReadString(ex.variables, "emailTo").value)
          && (|| (!HasText(ReadString(ex.variables, "emailSubject").value)
                  && ReadString(ex.variables, "approvalStatus").Failure?)
              || (&& !HasText(ReadString(ex.variables, "emailBody").value)
                  && ReadString(ex.variables, "emailTemplate").value.None?
                  && (|| ReadString(ex.variables, "approvalStatus").Failure?
                      || ReadString(ex.variables, "approvalComment").Failure?))))
    ensures r.Success? && HasText(ReadString(ex.variables, "emailTo").value) ==>
      r.value.variables == Deliver(ex.variables, enabled, outcome, now)
    ensures InputsCastable(ex.variables) && !HasText(ReadString(ex.variables, "emailTo").value) ==>
      r == Success(EmailRun(ex.variables["emailStatus" := Str("SKIPPED")]["emailError" := Str("No recipient specified")], None))
    ensures r.Success? && r.value.attempted.Some? ==>
      var m := r.value.attempted.value;
      var subject := ReadString(ex.variables, "emailSubject").value;
      && enabled
      && Get(ex.variables, "emailTo") == Str(m.to) && !IsBlank(m.to)
      && (HasText(subject) ==> m.subject == subject.value)
      && (!HasText(subject) ==>
            ReadString(ex.variables, "approvalStatus").Success? && m.subject == DefaultSubject(ReadString(ex.variables, "approvalStatus").value, ex.processInstanceId))
  {
    var vars := ex.variables;
    var to :- ReadString(vars, "emailTo");
    var subject :- ReadString(vars, "emailSubject");
    var body :- ReadString(vars, "emailBody");
    var template :- ReadString(vars, "emailTemplate");
    if !HasText(to) then
      Success(EmailRun(vars["emailStatus" := Str("SKIPPED")]["emailError" := Str("No recipient specified")], None))
    else
      var subject' :- ResolveSubject(ex, subject);
      var body' :- ResolveBody(ex, body, template);
      var attempted := if enabled then Some(Email(to.value, subject', body')) else None;
      Success(EmailRun(Deliver(vars, enabled, outcome, now), attempted))
  }

  /** The status a successful run leaves, by case: skipped without a
      recipient; otherwise disabled, sent or failed according to the
      setting and the transport. Only a sent message records its time and
      only a skipped or failed one records an error. */
  lemma StatusByCase(ex: Execution, enabled: bool, outcome: SendOutcome, now: Timestamp)
    requires Execute(ex, enabled, outcome, now).Success?
    ensures var out := Execute(ex, enabled, outcome, now).value.variables;
      var hasRecipient := HasText(ReadString(ex.variables, "emailTo").value);
      && (Get(out, "emailStatus") == Str("SKIPPED") <==> !hasRecipient)
      && (Get(out, "emailStatus") == Str("DISABLED") <==> hasRecipient && !enabled)
      && (Get(out, "emailStatus") == Str("SENT") <==> hasRecipient && enabled && outcome.Delivered?)
      && (Get(out, "emailStatus") == Str("FAILED") <==> hasRecipient && enabled && outcome.Threw?)
      && (Get(out, "emailStatus") == Str("SENT") ==> Get(out, "emailSentAt") == Num(now))
      && (Get(out, "emailStatus") == Str("FAILED") ==> Get(out, "emailError") == FromString(outcome.message))
      && (Execute(ex, enabled, outcome, now).value.attempted.Some? <==> hasRecipient && enabled)
  {
  }

  /** Apart from the status, its time and the error, nothing in the
      process's variables changes. */
  lemma OnlyStatusVariablesChange(ex: Execution, enabled: bool, outcome: SendOutcome, now: Timestamp)
    requires Execute(ex, enabled, outcome, now).Success?
    ensures var out := Execute(ex, enabled, outcome, now).value.variables;
      && out.Keys <= ex.variables.Keys + {"emailStatus", "emailSentAt", "emailError"}
      && "emailStatus" in out
      && forall k | k in ex.variables && k !in {"emailStatus", "emailSentAt", "emailError"} :: out[k] == ex.variables[k]
  {
  }

  /** A template name suppresses the default body: the message carries the
      process's body exactly as given, null or blank included. */
  lemma TemplateKeepsBody(ex: Execution, enabled: bool, outcome: SendOutcome, now: Timestamp)
    requires Execute(ex, enabled, outcome, now).Success?
    requires Execute(ex, enabled, outcome, now).value.attempted.Some?
    requires Get(ex.variables, "emailTemplate").Str?
    ensures FromString(Execute(ex, enabled, outcome, now).value.attempted.value.body) == Get(ex.variables, "emailBody")
  {
  }

  /** Without a body or a template, the message carries the default body,
      which names the instance. */
  lemma MissingBodyGetsDefault(ex: Execution, enabled: bool, outcome: SendOutcome, now: Timestamp)
    requires Execute(ex, enabled, outcome, now).Success?
    requires Execute(ex, enabled, outcome, now).value.attempted.Some?
    requires !HasText(ReadString(ex.variables, "emailBody").value)
    requires Get(ex.variables, "emailTemplate") == Null
    ensures var body := Execute(ex, enabled, outcome, now).value.attempted.value.body;
      && body.Some?
      && StartsWith(body.value, BodyHeader)
      && Contains(body.value, InstanceLine(ex.processInstanceId))
  {
  }
}
