/** Process variables as the BPMN delegates see them through
    `DelegateExecution`: an untyped map from names to values, read with a
    Java cast that throws `ClassCastException` when the stored value has
    another type, and written with `setVariable`. */
module ProcessVariables {
  import opened Wrappers

  /** The values the services store: null, booleans, strings and integral
      numbers (`Integer` and `Long` alike). */
  datatype Value = Null | Bool(b: bool) | Str(s: string) | Num(n: int)

  type Variables = map<string, Value>

  /** The exception a delegate throws when a variable holds a value of the
      wrong type for the cast applied to it. */
  datatype CastError = ClassCast(name: string)

  /** The part of `DelegateExecution` the delegates use. */
  datatype Execution = Execution(
    processInstanceId: string,
    processDefinitionId: string,
    currentActivityId: string,
    currentActivityName: Option<string>,
    variables: Variables)

  /** `getVariable`: an absent name reads as null. */
  function Get(vars: Variables, name: string): (v: Value)
    ensures name !in vars ==> v == Null
    ensures name in vars ==> v == vars[name]
  {
    if name in vars then vars[name] else Null
  }

  /** `(Boolean) getVariable(name)`. */
  function ReadBool(vars: Variables, name: string): (r: Result<Option<bool>, CastError>)
    ensures r.Failure? <==> !(Get(vars, name).Null? || Get(vars, name).Bool?)
    ensures r == Success(None) <==> Get(vars, name) == Null
    ensures forall b :: r == Success(Some(b)) <==> Get(vars, name) == Bool(b)
  {
    match Get(vars, name)
    case Null => Success(None)
    case Bool(b) => Success(Some(b))
    case _ => Failure(ClassCast(name))
  }

  /** `(String) getVariable(name)`. */
  function ReadString(vars: Variables, name: string): (r: Result<Option<string>, CastError>)
    ensures r.Failure? <==> !(Get(vars, name).Null? || Get(vars, name).Str?)
    ensures r == Success(None) <==> Get(vars, name) == Null
    ensures forall s :: r == Success(Some(s)) <==> Get(vars, name) == Str(s)
  {
    match Get(vars, name)
    case Null => Success(None)
    case Str(s) => Success(Some(s))
    case _ => Failure(ClassCast(name))
  }

  /** The value `setVariable(name, s)` stores for a possibly-null string. */
  function FromString(s: Option<string>): (v: Value)
    ensures s.None? <==> v == Null
    ensures s.Some? ==> v == Str(s.value)
  {
    match s
    case Some(t) => Str(t)
    case None => Null
  }
}
