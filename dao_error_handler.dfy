/**
 * The DAO error hierarchy and the decorators that classify what a DAO call
 * returned or raised (utils/dao_error_handler.py). A wrapped call is given
 * as its `Outcome`: the value it returned, or the exception it raised.
 */
module DaoErrorHandler {
  import opened Wrappers
  import opened Text
  import opened Values

  /** The three subclasses of `DAOError`. */
  datatype DaoErrorKind = ConnectionError | ValidationError | OperationError

  datatype DaoError = DaoError(kind: DaoErrorKind, operation: string, details: string)
  {
    /** `str(e)`, fixed by the base class constructor. */
    function Message(): string
    {
      "DAO " + operation + " failed: " + details
    }
  }

  /** Exceptions the wrapped code can raise. */
  datatype Exception =
    | Dao(error: DaoError)
    | ValueError(msg: string)
    | PermissionError(msg: string)
    | OtherException(msg: string)
  {
    function Str(): string
    {
      match this
      case Dao(e) => e.Message()
      case ValueError(m) => m
      case PermissionError(m) => m
      case OtherException(m) => m
    }
  }

  datatype Outcome = Returned(result: Value) | Raised(exception: Exception)

  predicate IsBooleanOperation(op: string)
  {
    StartsWith(op, "save_") || StartsWith(op, "update_") || StartsWith(op, "delete_") || StartsWith(op, "create_")
  }

  const FalseDetails := "Operation returned False indicating failure"

  /** How `handle_dao_errors` turns an exception that is not a `DAOError` into one. */
  function ClassifyException(op: string, message: string): (e: DaoError)
    ensures e.operation == op
    ensures e.kind == ConnectionError <==>
      (Contains(Lower(message), "permission") || Contains(message, "403")
       || Contains(Lower(message), "connection") || Contains(Lower(message), "timeout"))
    ensures e.kind == OperationError ==> e.details == message
    ensures e.kind == ValidationError ==> e.details == "Data validation failed: " + message
  {
    var low := Lower(message);
    if Contains(low, "permission") || Contains(message, "403") then
      DaoError(ConnectionError, op, "Insufficient database permissions")
    else if Contains(low, "connection") || Contains(low, "timeout") then
      DaoError(ConnectionError, op, "Database connection failed")
    else if Contains(low, "validation") || Contains(low, "invalid") then
      DaoError(ValidationError, op, "Data validation failed: " + message)
    else
      DaoError(OperationError, op, message)
  }

  /**
   * `handle_dao_errors(op)` applied to one call: a returned value passes
   * unless it is `False` from a save_/update_/delete_/create_ operation; a
   * `DAOError` is re-raised unchanged; anything else is classified.
   */
  function HandleDaoErrors(op: string, outcome: Outcome): (r: Result<Value, DaoError>)
    ensures outcome.Returned? ==>
      (r.Ok? <==> !(outcome.result == Bool(false) && IsBooleanOperation(op)))
    ensures r.Ok? ==> outcome.Returned? && r.value == outcome.result
    ensures outcome.Returned? && r.Err? ==> r.error == DaoError(OperationError, op, FalseDetails)
    ensures outcome.Raised? && outcome.exception.Dao? ==> r == Err(outcome.exception.error)
    ensures outcome.Raised? && !outcome.exception.Dao? ==> r.Err? && r.error.operation == op
  {
    match outcome
    case Returned(v) =>
      if v == Null && StartsWith(op, "get_") then Ok(Null)
      else if v == Bool(false) && IsBooleanOperation(op) then Err(DaoError(OperationError, op, FalseDetails))
      else Ok(v)
    case Raised(Dao(e)) => Err(e)
    case Raised(e) => Err(ClassifyException(op, e.Str()))
  }

  /** The Python type an `expected_type` argument names. */
  datatype PyType = NoneType | BoolType | IntType | FloatType | StrType | ListType | DictType | DatetimeType
  {
    function Name(): string
    {
      match this
      case NoneType => "NoneType"
      case BoolType => "bool"
      case IntType => "int"
      case FloatType => "float"
      case StrType => "str"
      case ListType => "list"
      case DictType => "dict"
      case DatetimeType => "datetime"
    }
  }

  function TypeOf(v: Value): PyType
  {
    match v
    case Null => NoneType
    case Bool(_) => BoolType
    case Int(_) => IntType
    case Real(_) => FloatType
    case Str(_) => StrType
    case List(_) => ListType
    case Obj(_) => DictType
    case DateTime(_) => DatetimeType
  }

  /** `isinstance(v, t)`; `bool` is a subclass of `int`. */
  predicate IsInstance(v: Value, t: PyType)
  {
    TypeOf(v) == t || (t == IntType && v.Bool?)
  }

  /** `validate_dao_result`. */
  function ValidateDaoResult(result: Value, op: string, expected: Option<PyType>): (r: Result<Value, DaoError>)
    ensures r.Ok? ==> r.value == result
    ensures result == Null && StartsWith(op, "get_") ==> r.Ok?
    ensures result == Null && (StartsWith(op, "save_") || StartsWith(op, "update_")) && !StartsWith(op, "get_")
      ==> r.Err? && r.error.kind == OperationError
    ensures result == Bool(false) && IsBooleanOperation(op) ==> r.Err?
    ensures r.Err? && r.error.kind == ValidationError ==>
      expected.Some? && result != Null && !IsInstance(result, expected.value)
    ensures r.Err? ==> r.error.operation == op
    ensures r.Err? <==>
      (result == Null && !StartsWith(op, "get_") && (StartsWith(op, "save_") || StartsWith(op, "update_")))
      || (result == Bool(false) && IsBooleanOperation(op))
      || (expected.Some? && result != Null && !IsInstance(result, expected.value))
  {
    if result == Null && (StartsWith(op, "get_") || StartsWith(op, "save_") || StartsWith(op, "update_")) then
      if StartsWith(op, "get_") then Ok(Null)
      else Err(DaoError(OperationError, op, "Operation returned None instead of expected result"))
    else if result == Bool(false) && IsBooleanOperation(op) then
      Err(DaoError(OperationError, op, FalseDetails))
    else if expected.Some? && result != Null && !IsInstance(result, expected.value) then
      Err(DaoError(ValidationError, op,
        "Expected " + expected.value.Name() + " but got " + TypeOf(result).Name()))
    else Ok(result)
  }

  /** `ensure_document_id`: a missing or empty id raises, any other id is returned unchanged. */
  function EnsureDocumentId(id: Option<string>, op: string): (r: Result<string, DaoError>)
    ensures r.Ok? <==> id.Some? && id.value != []
    ensures r.Ok? ==> r.value == id.value
    ensures r.Err? ==> r.error.kind == OperationError && r.error.operation == op
  {
    if id.None? || id.value == [] then
      Err(DaoError(OperationError, op, "Document ID is required but was not provided or is empty"))
    else Ok(id.value)
  }

  /**
   * `handle_service_dao_errors(op)` applied to one call: every exception,
   * of whatever class, leaves as a plain `Exception` whose message names
   * the service operation.
   */
  function HandleServiceDaoErrors<T>(op: string, outcome: Result<T, Exception>): (r: Result<T, string>)
    ensures outcome.Ok? <==> r.Ok?
    ensures outcome.Ok? ==> r.value == outcome.value
    ensures outcome.Err? && outcome.error.Dao? ==>
      r.error == "Service '" + op + "' failed: " + outcome.error.error.Message()
    ensures outcome.Err? && !outcome.error.Dao? ==>
      r.error == "Service '" + op + "' encountered an error: " + outcome.error.Str()
  {
    match outcome
    case Ok(v) => Ok(v)
    case Err(Dao(e)) => Err("Service '" + op + "' failed: " + e.Message())
    case Err(e) => Err("Service '" + op + "' encountered an error: " + e.Str())
  }

  /** The `False` a failed save produces is itself a `DAOError`, so it is re-raised as it is. */
  lemma FalseFromSaveIsOperationError(op: string)
    requires IsBooleanOperation(op)
    ensures HandleDaoErrors(op, Returned(Bool(false))) == Err(DaoError(OperationError, op, FalseDetails))
    ensures HandleDaoErrors(op, Raised(Dao(DaoError(OperationError, op, FalseDetails))))
         == HandleDaoErrors(op, Returned(Bool(false)))
  {
  }

  /** A get_ operation is never an error for returning None, and `0` is not `False`. */
  lemma GetNoneAndZeroPass(op: string)
    requires StartsWith(op, "get_")
    ensures HandleDaoErrors(op, Returned(Null)) == Ok(Null)
    ensures HandleDaoErrors(op, Returned(Int(0))) == Ok(Int(0))
  {
  }
}
