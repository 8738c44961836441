/**
 * How a FastAPI route turns what its `try` block raised into a response:
 * the `except` clauses are tried in order, the first whose class matches
 * handles the exception, and an exception that no clause handles leaves the
 * route (an `HTTPException` as its own response, anything else as a 500).
 */
module RouteErrors {
  import opened Wrappers
  import opened Text

  /** An exception raised inside a route's `try` block. */
  datatype Exc =
    | HttpExc(status: int, detail: string)
    | ValueExc(message: string)
    | PermissionExc(message: string)
    | OtherExc(message: string)

  /** `str(e)`; Starlette prints an `HTTPException` as "{status}: {detail}". */
  function Message(e: Exc): string
  {
    match e
    case HttpExc(status, detail) => IntToString(status) + ": " + detail
    case ValueExc(m) => m
    case PermissionExc(m) => m
    case OtherExc(m) => m
  }

  /** The class an `except` clause names; `Exception` catches every one of them, `HTTPException` included. */
  datatype Catches = HTTPException | ValueError | PermissionError | AnyException

  predicate Matches(c: Catches, e: Exc)
  {
    match c
    case HTTPException => e.HttpExc?
    case ValueError => e.ValueExc?
    case PermissionError => e.PermissionExc?
    case AnyException => true
  }

  /** A bare `raise`, or `raise HTTPException(status, detail)` where a missing detail is `str(e)`. */
  datatype Action = Reraise | Raise(status: int, detail: Option<string>)

  datatype Clause = Clause(catches: Catches, action: Action)

  /** What the client receives. */
  datatype Response<T> = Success(value: T) | HttpError(status: int, detail: string)

  /** An exception that leaves the route: an `HTTPException` is its own response, anything else an internal error. */
  function Escaped<T>(e: Exc): (r: Response<T>)
    ensures r.HttpError?
    ensures e.HttpExc? ==> r == HttpError(e.status, e.detail)
    ensures !e.HttpExc? ==> r.status == 500
  {
    if e.HttpExc? then HttpError(e.status, e.detail) else HttpError(500, "Internal Server Error")
  }

  /** The clause that handles `e`: the first one whose class matches. */
  function FirstMatch(clauses: seq<Clause>, e: Exc): (r: Option<nat>)
    ensures r.Some? ==> (r.value < |clauses| && Matches(clauses[r.value].catches, e)
      && forall j :: 0 <= j < r.value ==> !Matches(clauses[j].catches, e))
    ensures r.None? ==> forall j :: 0 <= j < |clauses| ==> !Matches(clauses[j].catches, e)
  {
    if clauses == [] then None
    else if Matches(clauses[0].catches, e) then Some(0)
    else match FirstMatch(clauses[1..], e)
      case None => None
      case Some(k) => Some(k + 1)
  }

  /** The response for an exception the clauses meet. */
  function Handled<T>(clauses: seq<Clause>, e: Exc): (r: Response<T>)
    ensures r.HttpError?
  {
    match FirstMatch(clauses, e)
    case None => Escaped(e)
    case Some(k) =>
      match clauses[k].action
      case Reraise => Escaped(e)
      case Raise(status, detail) => HttpError(status, if detail.Some? then detail.value else Message(e))
  }

  /** A route: the value its body returned, or what its clauses make of the exception. */
  function Route<T>(body: Result<T, Exc>, clauses: seq<Clause>): (r: Response<T>)
    ensures r.Success? <==> body.Ok?
    ensures body.Ok? ==> r.value == body.value
  {
    if body.Ok? then Success(body.value) else Handled(clauses, body.error)
  }

  /** The clauses with `except HTTPException: raise` in front, as the voice-assistant route writes them. */
  function KeepingHttp(clauses: seq<Clause>): (r: seq<Clause>)
    ensures |r| == |clauses| + 1 && r[0] == Clause(HTTPException, Reraise) && r[1..] == clauses
  {
    [Clause(HTTPException, Reraise)] + clauses
  }

  /**
   * With `except HTTPException: raise` in front, an `HTTPException` raised
   * in the body reaches the client unchanged, and every other exception is
   * handled exactly as before.
   */
  lemma KeepingHttpPassesHttpErrors<T>(body: Result<T, Exc>, clauses: seq<Clause>)
    ensures body.Err? && body.error.HttpExc? ==>
      Route(body, KeepingHttp(clauses)) == HttpError(body.error.status, body.error.detail)
    ensures body.Err? && !body.error.HttpExc? ==> Route(body, KeepingHttp(clauses)) == Route(body, clauses)
    ensures body.Ok? ==> Route(body, KeepingHttp(clauses)) == Route(body, clauses)
  {
    if body.Err? && !body.error.HttpExc? {
      var k := KeepingHttp(clauses);
      assert !Matches(k[0].catches, body.error);
      assert k[1..] == clauses;
      assert FirstMatch(k, body.error) == (match FirstMatch(clauses, body.error) case None => None case Some(j) => Some(j + 1));
    }
  }

  /**
   * A bare `except Exception` that answers 500 turns an `HTTPException`
   * raised in the body into a 500 whose detail is the exception printed as
   * "{status}: {detail}".
   */
  lemma CatchAllSwallowsHttpErrors<T>(status: int, detail: string, message: Option<string>)
    ensures Route<T>(Err(HttpExc(status, detail)), [Clause(AnyException, Raise(500, message))])
      == HttpError(500, if message.Some? then message.value else IntToString(status) + ": " + detail)
  {
  }
}
