/**
 * The error middleware of src/middleware/error.js: `Handler` renders an error
 * as the JSON response, `ConvertError` turns every error into an APIError
 * first, `NotFound` and `RateLimitHandler` build fixed errors.
 */
module ErrorMiddleware {
  import opened Wrappers
  import opened Constants
  import opened JsText
  import opened ApiErrors

  /** The characters that `replace(/[^\w\s]/gi, '')` leaves in place. */
  predicate KeptByFilter(c: char) {
    IsWordChar(c) || IsJsSpace(c)
  }

  /** `s.replace(/[^\w\s]/gi, '')`: drops every character that is neither a word character nor white space. */
  function StripNonWord(s: string): (r: string)
    ensures |r| <= |s|
    ensures forall i :: 0 <= i < |r| ==> KeptByFilter(r[i])
  {
    if s == [] then []
    else (if KeptByFilter(s[0]) then [s[0]] else []) + StripNonWord(s[1..])
  }

  /** A string made only of kept characters passes through the filter unchanged. */
  lemma {:induction false} StripKeepsCleanText(s: string)
    requires forall i :: 0 <= i < |s| ==> KeptByFilter(s[i])
    ensures StripNonWord(s) == s
  {
    if s != [] {
      StripKeepsCleanText(s[1..]);
    }
  }

  /** The filter is idempotent. */
  lemma StripIdempotent(s: string)
    ensures StripNonWord(StripNonWord(s)) == StripNonWord(s)
  {
    StripKeepsCleanText(StripNonWord(s));
  }

  /** The filter works character by character: it distributes over concatenation. */
  lemma {:induction false} StripConcat(a: string, b: string)
    ensures StripNonWord(a + b) == StripNonWord(a) + StripNonWord(b)
  {
    if a == [] {
      assert a + b == b;
    } else {
      assert (a + b)[1..] == a[1..] + b;
      StripConcat(a[1..], b);
    }
  }

  /** The filter removes exactly the characters it does not keep: the result is as long as `s` iff nothing was dropped. */
  lemma {:induction false} StripShortensIffDropped(s: string)
    ensures |StripNonWord(s)| == |s| <==> forall i :: 0 <= i < |s| ==> KeptByFilter(s[i])
  {
    if s != [] {
      StripShortensIffDropped(s[1..]);
      if |StripNonWord(s)| == |s| {
        assert KeptByFilter(s[0]);
        forall i | 0 <= i < |s| ensures KeptByFilter(s[i]) {
          if i > 0 { assert s[i] == s[1..][i - 1]; }
        }
      }
      if forall i :: 0 <= i < |s| ==> KeptByFilter(s[i]) {
        assert forall i :: 0 <= i < |s[1..]| ==> KeptByFilter(s[1..][i]) by {
          forall i | 0 <= i < |s[1..]| ensures KeptByFilter(s[1..][i]) {
            assert s[1..][i] == s[i + 1];
          }
        }
      }
    }
  }

  /**
   * `e.messages[0].replace(...)` needs a first message; on an empty
   * `messages` array it reads `replace` of undefined and throws.
   */
  predicate WellFormedEntry(r: RawEntry) {
    |r.messages| > 0
  }

  predicate WellFormed(t: Thrown) {
    t.RequestInvalid? ==> forall i :: 0 <= i < |t.entries| ==> WellFormedEntry(t.entries[i])
  }

  /** What `ConvertError` throws for a validation error with an entry that has no message. */
  const MISSING_MESSAGE: Thrown := TypeErrorOnUndefined("replace")

  /** `a[0]`: undefined on an empty array. */
  function First(a: seq<string>): (r: Option<string>)
    ensures r.Some? <==> |a| > 0
    ensures r.Some? ==> r.value == a[0]
  {
    if |a| > 0 then Some(a[0]) else None
  }

  function ConvertEntry(r: RawEntry): (f: FieldError)
    requires WellFormedEntry(r)
  {
    FieldError(First(r.field), r.location, StripNonWord(r.messages[0]))
  }

  /** `err.status || 400`: a missing or zero status is falsy. */
  predicate Truthy(s: Option<int>) {
    s.Some? && s.value != 0
  }

  /** The `ConvertedError` that `ConvertError` hands to `Handler`. */
  function Converted(t: Thrown): (e: ErrorValue)
    requires WellFormed(t)
    ensures t.Api? ==> e == t.err
    ensures t.RequestInvalid? ==>
      && e.name == API_ERROR_NAME && e.message == VALIDATION_ERROR
      && e.status == (if Truthy(t.status) then t.status.value else BAD_REQUEST)
      && e.stack.None? && !e.isPublic
      && |e.errors| == |t.entries|
      && forall i :: 0 <= i < |t.entries| ==>
           && e.errors[i].location == t.entries[i].location
           && e.errors[i].field == First(t.entries[i].field)
           && e.errors[i].messages == StripNonWord(t.entries[i].messages[0])
    ensures t.Foreign? ==>
      && e.name == API_ERROR_NAME && e.message == t.message && e.stack == t.stack
      && e.errors == [] && !e.isPublic
      && e.status == t.status.GetOr(INTERNAL_SERVER_ERROR)
  {
    match t
    case Api(e) => e
    case RequestInvalid(_, status, entries, _) =>
      var errors := seq(|entries|, i requires 0 <= i < |entries| => ConvertEntry(entries[i]));
      Build(ErrorArgs(VALIDATION_ERROR, None, Some(errors),
                      Some(if Truthy(status) then status.value else BAD_REQUEST), None))
    case Foreign(_, message, _, _, status, stack) =>
      Build(ErrorArgs(message, stack, None, status, None))
  }

  /** The JSON body `Handler` sends; `None` is an undefined property, which JSON leaves out. */
  datatype ErrorBody = ErrorBody(code: Option<int>, message: string, errors: Option<seq<FieldError>>, stack: Option<string>)

  /** `res.status(code).json(body)`; a status of `None` is `res.status(undefined)`. */
  datatype ErrorResponse = ErrorResponse(status: Option<int>, body: ErrorBody)

  const PRODUCTION: string := "production"

  function StatusOf(t: Thrown): Option<int>
    requires !t.RequestInvalid?
  {
    if t.Api? then Some(t.err.status) else t.status
  }

  /**
   * `Handler(err)`: code, message and errors are the error's `status`,
   * `message` and `errors`; the stack is sent unless `env` is "production".
   * Only APIErrors carry `errors`; the core never hands a raw
   * express-validation error to `Handler`.
   */
  function Handler(t: Thrown, env: Option<string>): (r: ErrorResponse)
    requires !t.RequestInvalid?
    ensures r.status == r.body.code == StatusOf(t)
    ensures r.body.message == MessageOf(t)
    ensures r.body.errors == (if t.Api? then Some(t.err.errors) else None)
    ensures env == Some(PRODUCTION) ==> r.body.stack.None?
    ensures env != Some(PRODUCTION) ==> r.body.stack == StackOf(t)
  {
    var errors := if t.Api? then Some(t.err.errors) else None;
    var stack := if env == Some(PRODUCTION) then None else StackOf(t);
    var body := ErrorBody(StatusOf(t), MessageOf(t), errors, stack);
    ErrorResponse(body.code, body)
  }

  /**
   * The `ConvertError` middleware: convert, then respond through `Handler`.
   * It runs to completion when every validation entry has a message; otherwise
   * it throws MISSING_MESSAGE, which the application tail hands to `Handler`.
   */
  function ConvertError(t: Thrown, env: Option<string>): (r: ErrorResponse)
    requires WellFormed(t)
    ensures r.status.Some? && r.body.errors.Some?
    ensures t.Api? ==> r == Handler(t, env)
    ensures t.Foreign? ==> r.status == Some(t.status.GetOr(INTERNAL_SERVER_ERROR)) && r.body.errors == Some([])
    ensures t.RequestInvalid? ==> r.body.message == VALIDATION_ERROR
    ensures t.RequestInvalid? ==>
      && r.status == Some(if Truthy(t.status) then t.status.value else BAD_REQUEST)
      && |r.body.errors.value| == |t.entries|
    ensures t.RequestInvalid? ==> r.body.errors == Some(Converted(t).errors) && r.body.stack.None?
    ensures t.Foreign? ==> r.body.message == t.message
  {
    Handler(Api(Converted(t)), env)
  }

  /** Every converted validation message holds only word characters and white space. */
  lemma ConvertedMessagesAreClean(t: Thrown, env: Option<string>, i: int, j: int)
    requires WellFormed(t) && t.RequestInvalid?
    requires 0 <= i < |t.entries|
    requires 0 <= j < |ConvertError(t, env).body.errors.value[i].messages|
    ensures KeptByFilter(ConvertError(t, env).body.errors.value[i].messages[j])
  {
  }

  const RESOURCE_NOT_FOUND: string := "Resource Not Found"
  const RATE_LIMIT_EXCEEDED: string := "Rate limt exceeded, please try again later some time."

  /** The catch-all 404 for requests no route handled. */
  function NotFound(env: Option<string>): (r: ErrorResponse)
    ensures r.status == Some(NOT_FOUND)
    ensures r.body == ErrorBody(Some(NOT_FOUND), RESOURCE_NOT_FOUND, Some([]), None)
  {
    Handler(Api(Build(MessageAndStatus(RESOURCE_NOT_FOUND, 404))), env)
  }

  /** The response sent once the rate limit is exceeded. */
  function RateLimitHandler(env: Option<string>): (r: ErrorResponse)
    ensures r.status == Some(TOO_MANY_REQUESTS)
    ensures r.body == ErrorBody(Some(TOO_MANY_REQUESTS), RATE_LIMIT_EXCEEDED, Some([]), None)
  {
    Handler(Api(Build(MessageAndStatus(RATE_LIMIT_EXCEEDED, 429))), env)
  }
}
