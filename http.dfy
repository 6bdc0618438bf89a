/**
 * The parts of an Express request and of a middleware's effect that the
 * user routes touch: `req.path`, `req.params`, `req.query`, `req.body`,
 * `req.locals` and `req.user`, and how a handler finishes.
 */
module Http {
  import opened Wrappers
  import opened ApiErrors
  import opened ErrorMiddleware
  import opened UserModel

  /** `req.locals` as `load` leaves it: unset, `{ data }` from the cache, or `{ user }` from the store. */
  datatype Locals = NoLocals | CachedLocals(data: UserData) | UserLocals(user: UserDoc)

  class Request {
    const path: string
    const params: map<string, string>
    const query: map<string, string>
    const body: map<string, Value>
    var locals: Locals
    var user: Option<UserDoc>

    constructor (path: string, params: map<string, string>, query: map<string, string>, body: map<string, Value>)
      ensures this.path == path && this.params == params && this.query == query && this.body == body
      ensures locals == NoLocals && user == None
    {
      this.path := path;
      this.params := params;
      this.query := query;
      this.body := body;
      locals := NoLocals;
      user := None;
    }
  }

  /** `String(req.params)`: a plain object renders as "[object Object]" whatever it holds. */
  const OBJECT_TEXT: string := "[object Object]"

  /** How a middleware or handler finishes. */
  datatype Outcome =
    | Next                                                       // next()
    | NextWith(error: Thrown)                                    // next(err)
    | Json(status: int, data: map<string, Value>, success: string)  // res.status(s).json({ data, success })
    | Ended(status: int)                                         // res.status(s).end()
    | Errored(response: ErrorResponse)                           // the error handler wrote the response

  /** `JSON.stringify` of a whole document: every stored property plus `_id`. */
  function DocumentJson(d: UserData): (j: map<string, Value>)
    ensures "_id" in j && j["_id"] == Str(d.id)
    ensures forall k :: k in d.attrs && k != "_id" ==> k in j && j[k] == d.attrs[k]
    ensures j.Keys == d.attrs.Keys + {"_id"}
  {
    d.attrs["_id" := Str(d.id)]
  }
}
