/** `ApprovalDelegate` (bean `approvalDelegate`): the service task that
    turns the user's approval decision, held in the process variable
    `approved`, into the status variables the rest of the process routes
    on. */
module ApprovalDelegate {
  import opened Wrappers
  import opened JavaLang
  import opened ProcessVariables

  /** The variables one run writes, by decision: only the status when no
      decision was made; status, approval time and next action on approval;
      status, rejection time, reason and next action on rejection. */
  function Written(approved: Option<bool>): set<string> {
    match approved
    case None => {"approvalStatus"}
    case Some(true) => {"approvalStatus", "approvalTimestamp", "nextAction"}
    case Some(false) => {"approvalStatus", "rejectionTimestamp", "rejectionReason", "nextAction"}
  }

  /** All three variables the delegate casts hold values of the right type
      (or nothing). */
  predicate Castable(vars: Variables) {
    && ReadBool(vars, "approved").Success?
    && ReadString(vars, "approver").Success?
    && ReadString(vars, "approvalComment").Success?
  }

  /** The writes of a run that got past the casts. */
  function Record(vars: Variables, approved: Option<bool>, approvalComment: Option<string>, now: Timestamp): Variables {
    match approved
    case None => vars["approvalStatus" := Str("PENDING")]
    case Some(true) =>
      vars["approvalStatus" := Str("APPROVED")]
          ["approvalTimestamp" := Num(now)]
          ["nextAction" := Str("proceed")]
    case Some(false) =>
      vars["approvalStatus" := Str("REJECTED")]
          ["rejectionTimestamp" := Num(now)]
          ["rejectionReason" := FromString(approvalComment)]
          ["nextAction" := Str("revise")]
  }

  /** `execute(execution)`, with `now` standing for
      `System.currentTimeMillis()`. The three casts come first, so a
      mistyped `approver` or `approvalComment` aborts the run even though
      those values are only logged or copied. The result is the execution's
      variables after the run. */
  function Execute(ex: Execution, now: Timestamp): (r: Result<Variables, CastError>)
    ensures r.Failure? <==> !Castable(ex.variables)
    ensures ReadBool(ex.variables, "approved").Failure? ==> r == Failure(ClassCast("approved"))
    ensures ReadBool(ex.variables, "approved").Success? && ReadString(ex.variables, "approver").Failure? ==>
      r == Failure(ClassCast("approver"))
    ensures ReadBool(ex.variables, "approved").Success? && ReadString(ex.variables, "approver").Success?
            && ReadString(ex.variables, "approvalComment").Failure? ==>
      r == Failure(ClassCast("approvalComment"))
    ensures r.Success? ==>
      var vars := ex.variables;
      var d := ReadBool(vars, "approved").value;
      var out := r.value;
      && out.Keys == vars.Keys + Written(d)
      && (forall k | k in vars && k !in Written(d) :: out[k] == vars[k])
      && (Get(out, "approvalStatus") == Str("PENDING") <==> d.None?)
      && (Get(out, "approvalStatus") == Str("APPROVED") <==> d == Some(true))
      && (Get(out, "approvalStatus") == Str("REJECTED") <==> d == Some(false))
      && (d == Some(true) ==> Get(out, "approvalTimestamp") == Num(now) && Get(out, "nextAction") == Str("proceed"))
      && (d == Some(false) ==>
            && Get(out, "rejectionTimestamp") == Num(now)
            && Get(out, "rejectionReason") == Get(vars, "approvalComment")
            && Get(out, "nextAction") == Str("revise"))
  {
    var vars := ex.variables;
    var approved :- ReadBool(vars, "approved");
    var approver :- ReadString(vars, "approver");
    var approvalComment :- ReadString(vars, "approvalComment");
    Success(Record(vars, approved, approvalComment, now))
  }

  /** A decided run stamps exactly one of the two timestamp variables with
      the run's instant and leaves the other as it was; an undecided run
      stamps neither. */
  lemma OneTimestampPerDecision(ex: Execution, now: Timestamp)
    requires Execute(ex, now).Success?
    ensures var vars := ex.variables;
      var out := Execute(ex, now).value;
      var d := ReadBool(vars, "approved").value;
      && (d == Some(true) ==>
            Get(out, "approvalTimestamp") == Num(now) && Get(out, "rejectionTimestamp") == Get(vars, "rejectionTimestamp"))
      && (d == Some(false) ==>
            Get(out, "rejectionTimestamp") == Num(now) && Get(out, "approvalTimestamp") == Get(vars, "approvalTimestamp"))
      && (d.None? ==>
            && Get(out, "approvalTimestamp") == Get(vars, "approvalTimestamp")
            && Get(out, "rejectionTimestamp") == Get(vars, "rejectionTimestamp"))
  {
  }

  /** Recording twice at the same instant is recording once. */
  lemma RecordStable(vars: Variables, approved: Option<bool>, approvalComment: Option<string>, now: Timestamp)
    ensures Record(Record(vars, approved, approvalComment, now), approved, approvalComment, now)
         == Record(vars, approved, approvalComment, now)
  {
    var out := Record(vars, approved, approvalComment, now);
    var out' := Record(out, approved, approvalComment, now);
    assert out'.Keys == out.Keys;
  }

  /** Recording leaves the three variables the run reads as they were. */
  lemma RecordKeepsInputs(vars: Variables, approved: Option<bool>, approvalComment: Option<string>, now: Timestamp)
    ensures var out := Record(vars, approved, approvalComment, now);
      && ReadBool(out, "approved") == ReadBool(vars, "approved")
      && ReadString(out, "approver") == ReadString(vars, "approver")
      && ReadString(out, "approvalComment") == ReadString(vars, "approvalComment")
  {
    var out := Record(vars, approved, approvalComment, now);
    assert Get(out, "approved") == Get(vars, "approved");
    assert Get(out, "approver") == Get(vars, "approver");
    assert Get(out, "approvalComment") == Get(vars, "approvalComment");
  }

  /** The run never writes what it reads, so running it again at the same
      instant changes nothing, and at a later instant reaches the same
      decision. */
  lemma ExecuteIdempotent(ex: Execution, now: Timestamp, later: Timestamp)
    requires Execute(ex, now).Success?
    ensures Execute(ex.(variables := Execute(ex, now).value), now) == Execute(ex, now)
    ensures var again := Execute(ex.(variables := Execute(ex, now).value), later);
      && again.Success?
      && Get(again.value, "approvalStatus") == Get(Execute(ex, now).value, "approvalStatus")
      && Get(again.value, "nextAction") == Get(Execute(ex, now).value, "nextAction")
  {
    var vars := ex.variables;
    var d := ReadBool(vars, "approved").value;
    var c := ReadString(vars, "approvalComment").value;
    var out := Record(vars, d, c, now);
    assert Execute(ex, now) == Success(out);
    RecordKeepsInputs(vars, d, c, now);
    RecordStable(vars, d, c, now);
    assert Execute(ex.(variables := out), now) == Success(Record(out, d, c, now));
  }

  /** Recording commutes with setting a variable it does not write. */
  lemma RecordCommutes(vars: Variables, approved: Option<bool>, approvalComment: Option<string>, now: Timestamp,
                       key: string, v: Value)
    requires key !in Written(approved)
    ensures Record(vars[key := v], approved, approvalComment, now)
         == Record(vars, approved, approvalComment, now)[key := v]
  {
    var lhs := Record(vars[key := v], approved, approvalComment, now);
    var rhs := Record(vars, approved, approvalComment, now)[key := v];
    assert lhs.Keys == rhs.Keys;
  }

  /** The approver is only logged: whoever it names, the variables the
      run produces are the same. */
  lemma ApproverOnlyLogged(ex: Execution, now: Timestamp, other: Option<string>)
    requires ReadString(ex.variables, "approver").Success?
    ensures var ex' := ex.(variables := ex.variables["approver" := FromString(other)]);
      && Execute(ex', now).Success? == Execute(ex, now).Success?
      && (Execute(ex, now).Success? ==>
            Execute(ex', now).value == Execute(ex, now).value["approver" := FromString(other)])
  {
    var vars := ex.variables;
    var vars' := vars["approver" := FromString(other)];
    var ex' := ex.(variables := vars');
    assert Get(vars', "approved") == Get(vars, "approved");
    assert Get(vars', "approvalComment") == Get(vars, "approvalComment");
    assert ReadString(vars', "approver").Success?;
    if Execute(ex, now).Success? {
      var d := ReadBool(vars, "approved").value;
      var c := ReadString(vars, "approvalComment").value;
      assert Execute(ex, now) == Success(Record(vars, d, c, now));
      assert Execute(ex', now) == Success(Record(vars', d, c, now));
      RecordCommutes(vars, d, c, now, "approver", FromString(other));
    }
  }
}
