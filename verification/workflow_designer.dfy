/** `WorkflowDesignerService`: exporting a deployed definition's BPMN XML
    and a shallow validation of it by substring checks. */
module WorkflowDesignerService {
  import opened Wrappers
  import opened JavaLang
  import opened Engine

  /** Whether the repository service answers, or throws a runtime exception
      (with a possibly null message) that `validateBpmn` catches. */
  datatype RepositoryFault = Healthy | Throws(message: Option<string>)

  /** The three flags of the `checks` entry. */
  datatype Checks = Checks(hasStartEvent: bool, hasEndEvent: bool, hasTasks: bool)

  /** The result map of `validateBpmn`: either only `valid = false` and an
      `error`, or the outcome of the checks with the single `warning` slot. */
  datatype Validation =
    | Rejected(error: string)
    | Checked(valid: bool, processDefinitionId: string, processName: Option<string>,
              checks: Checks, warning: Option<string>)
  {
    /** The `valid` entry of the map. */
    predicate IsValid() {
      Checked? && valid
    }
  }

  /** `exportBpmn(processDefinitionId)`: the model's XML; null when the
      definition is unknown, has no model stream, or closing the stream
      fails (an `IOException`, which the method catches). A failure while
      reading the lines surfaces from `BufferedReader.lines()` as an
      `UncheckedIOException`, which that catch does not cover: the method
      throws, with the `IOException`'s text as the message. */
  function ExportBpmn(e: Engine, processDefinitionId: string): (r: Result<Option<string>, string>)
    ensures r.Failure? <==>
      DefinitionById(e, processDefinitionId).Some? && DefinitionById(e, processDefinitionId).value.model.Unreadable?
    ensures r.Failure? ==> r.error == DefinitionById(e, processDefinitionId).value.model.failure
    ensures r.Success? && r.value.Some? <==>
      DefinitionById(e, processDefinitionId).Some? && DefinitionById(e, processDefinitionId).value.model.Resource?
    ensures r.Success? && r.value.Some? ==> r.value.value == DefinitionById(e, processDefinitionId).value.model.xml
  {
    match DefinitionById(e, processDefinitionId)
    case None => Success(None)
    case Some(d) =>
      match d.model
      case NoResource => Success(None)
      case Unreadable(failure) => Failure(failure)
      case Unclosable(_) => Success(None)
      case Resource(xml) => Success(Some(xml))
  }

  const MissingStart: string := "Process is missing a start event"
  const MissingEnd: string := "Process is missing an end event"

  /** The checks on the XML text. The end-event warning is written after
      the start-event one, into the same slot. */
  function CheckXml(processDefinitionId: string, processName: Option<string>, xml: string): (r: Validation)
    ensures r.Checked?
    ensures r.valid <==> Contains(xml, "startEvent") && Contains(xml, "endEvent")
    ensures r.checks.hasTasks <==> Contains(xml, "userTask") || Contains(xml, "serviceTask")
    ensures r.warning.None? <==> Contains(xml, "startEvent") && Contains(xml, "endEvent")
    ensures !Contains(xml, "endEvent") ==> r.warning == Some(MissingEnd)
    ensures Contains(xml, "endEvent") && !Contains(xml, "startEvent") ==> r.warning == Some(MissingStart)
  {
    var hasStartEvent := Contains(xml, "startEvent");
    var hasEndEvent := Contains(xml, "endEvent");
    var hasTasks := Contains(xml, "userTask") || Contains(xml, "serviceTask");
    var warning := if !hasStartEvent then Some(MissingStart) else None;
    var warning := if !hasEndEvent then Some(MissingEnd) else warning;
    Checked(hasStartEvent && hasEndEvent, processDefinitionId, processName,
            Checks(hasStartEvent, hasEndEvent, hasTasks), warning)
  }

  /** `validateBpmn(processDefinitionId)`: every exception on the way,
      from the repository or from `exportBpmn`, is caught and reported as
      "Validation error: " and its message. */
  function ValidateBpmn(e: Engine, processDefinitionId: string, fault: RepositoryFault): (r: Validation)
    ensures fault.Throws? ==> r == Rejected("Validation error: " + Text(fault.message))
    ensures fault.Healthy? && DefinitionById(e, processDefinitionId).None? ==>
      r == Rejected("Process definition not found: " + processDefinitionId)
    ensures fault.Healthy? && ExportBpmn(e, processDefinitionId).Failure? ==>
      r == Rejected("Validation error: " + ExportBpmn(e, processDefinitionId).error)
    ensures fault.Healthy? && DefinitionById(e, processDefinitionId).Some?
            && ExportBpmn(e, processDefinitionId) == Success(None) ==>
      r == Rejected("Could not read BPMN XML")
    ensures r.Checked? ==>
      && fault.Healthy?
      && DefinitionById(e, processDefinitionId).Some?
      && ExportBpmn(e, processDefinitionId).Success?
      && ExportBpmn(e, processDefinitionId).value.Some?
      && r.processDefinitionId == processDefinitionId
      && r.processName == DefinitionById(e, processDefinitionId).value.name
      && r == CheckXml(processDefinitionId, r.processName, ExportBpmn(e, processDefinitionId).value.value)
  {
    if fault.Throws? then Rejected("Validation error: " + Text(fault.message))
    else match DefinitionById(e, processDefinitionId)
      case None => Rejected("Process definition not found: " + processDefinitionId)
      case Some(d) =>
        match ExportBpmn(e, processDefinitionId)
        case Failure(message) => Rejected("Validation error: " + message)
        case Success(None) => Rejected("Could not read BPMN XML")
        case Success(Some(xml)) => CheckXml(processDefinitionId, d.name, xml)
  }

  /** A definition validates exactly when the repository answers, the
      definition exists, its model can be read, and the XML mentions both a
      start and an end event; tasks play no part. */
  lemma ValidIffBothEvents(e: Engine, processDefinitionId: string, fault: RepositoryFault)
    ensures ValidateBpmn(e, processDefinitionId, fault).IsValid() <==>
      && fault.Healthy?
      && ExportBpmn(e, processDefinitionId).Success?
      && ExportBpmn(e, processDefinitionId).value.Some?
      && Contains(ExportBpmn(e, processDefinitionId).value.value, "startEvent")
      && Contains(ExportBpmn(e, processDefinitionId).value.value, "endEvent")
  {
    if fault.Healthy? && ExportBpmn(e, processDefinitionId).Success? && ExportBpmn(e, processDefinitionId).value.Some? {
      assert DefinitionById(e, processDefinitionId).Some?;
    }
  }

  /** A superseded version is still found by its id: validating it is the
      same as validating it while it was the latest version. */
  lemma OlderVersionsValidate(e: Engine, d: ProcessDefinition, fault: RepositoryFault)
    requires forall i | 0 <= i < |Versions(e)| :: Versions(e)[i].id != d.id
    ensures var older := e.(superseded := [d] + e.superseded);
            var latest := e.(definitions := [d] + e.definitions);
      ValidateBpmn(older, d.id, fault) == ValidateBpmn(latest, d.id, fault)
  {
    var older := e.(superseded := [d] + e.superseded);
    var latest := e.(definitions := [d] + e.definitions);
    assert Versions(older)[|e.definitions|] == d;
    forall i | 0 <= i < |Versions(older)| && i != |e.definitions|
      ensures Versions(older)[i].id != d.id
    {
      if i < |e.definitions| {
        assert Versions(older)[i] == Versions(e)[i];
      } else {
        assert Versions(older)[i] == Versions(e)[i - 1];
      }
    }
    assert Versions(latest)[0] == d;
    assert DefinitionById(older, d.id) == Some(d);
    assert DefinitionById(latest, d.id) == Some(d);
  }

  /** A checked result carries a warning exactly when it is invalid, and
      the task check never affects validity or the warning. */
  lemma WarningIffInvalid(processDefinitionId: string, processName: Option<string>, xml: string, other: string)
    requires Contains(other, "startEvent") == Contains(xml, "startEvent")
    requires Contains(other, "endEvent") == Contains(xml, "endEvent")
    ensures var r := CheckXml(processDefinitionId, processName, xml);
      r.valid <==> r.warning.None?
    ensures var r := CheckXml(processDefinitionId, processName, xml);
            var r' := CheckXml(processDefinitionId, processName, other);
      r.valid == r'.valid && r.warning == r'.warning
  {
  }
}
