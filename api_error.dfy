/**
 * The error values of the API (src/utils/APIError.js) and the other errors
 * that reach the error middleware.
 */
module ApiErrors {
  import opened Wrappers
  import opened Constants

  /** One entry of an APIError's `errors` list; a `field` of `None` is undefined, which JSON leaves out. */
  datatype FieldError = FieldError(field: Option<string>, location: string, messages: string)

  /** The fields of an APIError object at one moment. */
  datatype ErrorValue = ErrorValue(
    name: string,
    message: string,
    errors: seq<FieldError>,
    status: int,
    isPublic: bool,
    stack: Option<string>)

  /** The object literal passed to `new APIError({...})`; `None` is a property left out (undefined). */
  datatype ErrorArgs = ErrorArgs(
    message: string,
    stack: Option<string>,
    errors: Option<seq<FieldError>>,
    status: Option<int>,
    isPublic: Option<bool>)

  /** The usual `{ message, status }` argument. */
  function MessageAndStatus(message: string, status: int): ErrorArgs {
    ErrorArgs(message, None, None, Some(status), None)
  }

  const API_ERROR_NAME: string := "APIError"

  /**
   * What the APIError constructor leaves in the new object: `name` is the
   * class name, the other fields are copied, and left-out `errors`, `status`
   * and `isPublic` take their defaults `[]`, 500 and `false`.
   */
  function Build(a: ErrorArgs): (e: ErrorValue)
    ensures e.name == API_ERROR_NAME
    ensures e.message == a.message && e.stack == a.stack
    ensures a.errors.None? ==> e.errors == []
    ensures a.errors.Some? ==> e.errors == a.errors.value
    ensures a.status.None? ==> e.status == INTERNAL_SERVER_ERROR
    ensures a.status.Some? ==> e.status == a.status.value
    ensures a.isPublic.None? ==> !e.isPublic
    ensures a.isPublic.Some? ==> e.isPublic == a.isPublic.value
  {
    ErrorValue(API_ERROR_NAME, a.message, a.errors.GetOr([]),
               a.status.GetOr(INTERNAL_SERVER_ERROR), a.isPublic.GetOr(false), a.stack)
  }

  /** An APIError object: its fields are reassigned after construction (src/middleware/auth.js). */
  class APIError {
    var name: string
    var message: string
    var errors: seq<FieldError>
    var status: int
    var isPublic: bool
    var stack: Option<string>

    function View(): ErrorValue
      reads this
    {
      ErrorValue(name, message, errors, status, isPublic, stack)
    }

    constructor (a: ErrorArgs)
      ensures View() == Build(a)
    {
      name := API_ERROR_NAME;
      message := a.message;
      errors := a.errors.GetOr([]);
      status := a.status.GetOr(INTERNAL_SERVER_ERROR);
      isPublic := a.isPublic.GetOr(false);
      stack := a.stack;
    }
  }

  /** One entry of an express-validation ValidationError, before conversion. */
  datatype RawEntry = RawEntry(location: string, messages: seq<string>, field: seq<string>)

  /** An error raised by a backing store (MongoDB or Redis) or by a driver. */
  datatype StoreError = StoreError(name: string, message: string, stack: Option<string>)

  /** Anything that can be thrown or passed to `next(err)` in the core. */
  datatype Thrown =
    | Api(err: ErrorValue)
      // an `APIError` instance
    | RequestInvalid(message: string, status: Option<int>, entries: seq<RawEntry>, stack: Option<string>)
      // an express-validation `ValidationError`
    | Foreign(name: string, message: string, code: Option<int>, keyPattern: Option<seq<string>>,
              status: Option<int>, stack: Option<string>)
      // any other `Error`: driver errors, Mongoose errors, TypeErrors

  function FromStore(e: StoreError): (t: Thrown)
    ensures t.Foreign? && t.message == e.message && t.status.None? && t.code.None?
  {
    Foreign(e.name, e.message, None, None, None, e.stack)
  }

  /** `error.message` */
  function MessageOf(t: Thrown): string {
    match t
    case Api(e) => e.message
    case RequestInvalid(m, _, _, _) => m
    case Foreign(_, m, _, _, _, _) => m
  }

  /** `error.stack` */
  function StackOf(t: Thrown): Option<string> {
    match t
    case Api(e) => e.stack
    case RequestInvalid(_, _, _, s) => s
    case Foreign(_, _, _, _, _, s) => s
  }

  /** The TypeError a property read on `undefined` raises; Node's exact wording is not modelled. */
  function TypeErrorOnUndefined(property: string): (t: Thrown)
    ensures t.Foreign? && t.name == "TypeError" && t.status.None? && t.code.None?
  {
    Foreign("TypeError", "Cannot read property '" + property + "' of undefined", None, None, None, None)
  }
}
