/**
 * The user controller of src/api/controller/user.js: `load`, the
 * read-through loader registered for `:userId`, and the handlers that
 * answer from `req.locals`, `req.user` and the service.
 */
module UserController {
  import opened Wrappers
  import opened Constants
  import opened ApiErrors
  import opened ErrorMiddleware
  import opened UserModel
  import opened Cache
  import opened Http
  import opened UserService

  /** The key `load` uses: `req.params` renders as "[object Object]" and the query is left at its default. */
  function LoadKey(path: string): (key: string)
    ensures key == GenerateKey(path, ArgText(Some(OBJECT_TEXT)), ArgText(None))
    ensures key == "API-" + path + "-" + OBJECT_TEXT + "-0"
  {
    GenerateKey(path, ArgText(Some(OBJECT_TEXT)), ArgText(None))
  }

  /** Requests with different paths never share a cache entry, while query string and params never matter. */
  lemma LoadKeyIsPerPath(p1: string, p2: string)
    ensures LoadKey(p1) == LoadKey(p2) <==> p1 == p2
  {
    if LoadKey(p1) == LoadKey(p2) {
      KeyDeterminesPath(p1, p2, OBJECT_TEXT, "0");
    }
  }

  /**
   * `load(req, res, next, id)`: a live cache entry for the path is put in
   * `req.locals` without touching the store; otherwise the user is fetched
   * once, put in `req.locals` and cached. Any thrown error is answered by
   * the error Handler and `next` is not called.
   */
  method Load(req: Request, users: UserCollection, cache: TtlStore<UserData>, id: Option<string>,
              now: int, cacheFault: Option<StoreError>, ack: Ack, env: Option<string>)
    returns (out: Outcome)
    modifies req`locals, users`queries, cache
    ensures cacheFault.Some? ==>
      && out == Errored(Handler(FromStore(cacheFault.value), env))
      && req.locals == old(req.locals) && users.queries == old(users.queries) && cache.entries == old(cache.entries)
    ensures cacheFault.None? && ReadEntry(old(cache.entries), LoadKey(req.path), now).Some? ==>
      && out == Next
      && req.locals == CachedLocals(ReadEntry(old(cache.entries), LoadKey(req.path), now).value)
      && users.queries == old(users.queries) && cache.entries == old(cache.entries)
    ensures cacheFault.None? && ReadEntry(old(cache.entries), LoadKey(req.path), now).None? ==>
      var got := GetSpec(users.docs, users.fault, id);
      && users.queries == old(users.queries) + (if ValidId(id) then 1 else 0)
      && (got.Err? ==>
            out == Errored(Handler(got.error, env)) && req.locals == old(req.locals)
            && cache.entries == old(cache.entries))
      && (got.Ok? ==>
            && req.locals.UserLocals? && fresh(req.locals.user) && req.locals.user.Data() == got.value
            && cache.entries == (if ack == Reply("OK")
                                 then old(cache.entries)[LoadKey(req.path) := Entry(got.value, now + TTL)]
                                 else old(cache.entries))
            && out == (if ack.Fail? then Errored(Handler(FromStore(ack.error), env)) else Next))
  {
    var cached := GetCache(cache, req.path, Some(OBJECT_TEXT), None, now, cacheFault);
    if cached.Err? {
      return Errored(Handler(cached.error, env));
    }
    if cached.value.Some? {
      req.locals := CachedLocals(cached.value.value);
      return Next;
    }
    var user := UserModel.Get(users, id);
    if user.Err? {
      return Errored(Handler(user.error, env));
    }
    req.locals := UserLocals(user.value);
    var written := CreateCache(cache, user.value.Data(), req.path, Some(OBJECT_TEXT), None, now, ack);
    if written.Err? {
      return Errored(Handler(written.error, env));
    }
    out := Next;
  }

  /**
   * `load` as evidently intended: a cache hit rebuilds a user document from
   * the cached record, so the handlers find `req.locals.user` on a hit as
   * on a miss. Everything else is `load` as written.
   */
  method LoadRehydrating(req: Request, users: UserCollection, cache: TtlStore<UserData>, id: Option<string>,
                         now: int, cacheFault: Option<StoreError>, ack: Ack, env: Option<string>)
    returns (out: Outcome)
    modifies req`locals, users`queries, cache
    ensures cacheFault.Some? ==>
      && out == Errored(Handler(FromStore(cacheFault.value), env))
      && req.locals == old(req.locals) && users.queries == old(users.queries) && cache.entries == old(cache.entries)
    ensures cacheFault.None? && ReadEntry(old(cache.entries), LoadKey(req.path), now).Some? ==>
      && out == Next
      && req.locals.UserLocals? && fresh(req.locals.user)
      && req.locals.user.Data() == ReadEntry(old(cache.entries), LoadKey(req.path), now).value
      && users.queries == old(users.queries) && cache.entries == old(cache.entries)
    ensures cacheFault.None? && ReadEntry(old(cache.entries), LoadKey(req.path), now).None? ==>
      var got := GetSpec(users.docs, users.fault, id);
      && users.queries == old(users.queries) + (if ValidId(id) then 1 else 0)
      && (got.Err? ==>
            out == Errored(Handler(got.error, env)) && req.locals == old(req.locals)
            && cache.entries == old(cache.entries))
      && (got.Ok? ==>
            && req.locals.UserLocals? && fresh(req.locals.user) && req.locals.user.Data() == got.value
            && cache.entries == (if ack == Reply("OK")
                                 then old(cache.entries)[LoadKey(req.path) := Entry(got.value, now + TTL)]
                                 else old(cache.entries))
            && out == (if ack.Fail? then Errored(Handler(FromStore(ack.error), env)) else Next))
  {
    out := Load(req, users, cache, id, now, cacheFault, ack, env);
    if out == Next && req.locals.CachedLocals? {
      var doc := new UserDoc.Hydrate(req.locals.data);
      req.locals := UserLocals(doc);
    }
  }

  /**
   * `GET /:userId` past the guard, with the intended loader: a live cache
   * entry is answered with its public view, just as a fresh lookup is.
   */
  method LoadRehydratingThenGet(req: Request, users: UserCollection, cache: TtlStore<UserData>, id: Option<string>,
                                now: int, ack: Ack, env: Option<string>)
    returns (out: Outcome)
    modifies req`locals, users`queries, cache
    ensures ReadEntry(old(cache.entries), LoadKey(req.path), now).Some? ==>
      out == Json(OK, PublicView(ReadEntry(old(cache.entries), LoadKey(req.path), now).value), SUCCESS)
    ensures ReadEntry(old(cache.entries), LoadKey(req.path), now).None? && GetSpec(users.docs, users.fault, id).Ok?
            && ack.Reply? ==>
      out == Json(OK, PublicView(GetSpec(users.docs, users.fault, id).value), SUCCESS)
  {
    out := LoadRehydrating(req, users, cache, id, now, None, ack, env);
    if out != Next {
      return;
    }
    out := Get(req);
  }

  /** `get`: the public view of `req.locals.user`, which only a cache miss sets. */
  method Get(req: Request) returns (out: Outcome)
    ensures req.locals.UserLocals? ==> out == Json(OK, PublicView(req.locals.user.Data()), SUCCESS)
    ensures req.locals.CachedLocals? ==> out == NextWith(TypeErrorOnUndefined("transform"))
    ensures req.locals.NoLocals? ==> out == NextWith(TypeErrorOnUndefined("user"))
  {
    match req.locals
    case NoLocals => out := NextWith(TypeErrorOnUndefined("user"));
    case CachedLocals(_) => out := NextWith(TypeErrorOnUndefined("transform"));
    case UserLocals(user) =>
      var view := user.Transform();
      out := Json(OK, view, SUCCESS);
  }

  /** `loggedIn`: the public view of the authenticated user. */
  method LoggedIn(req: Request) returns (out: Outcome)
    ensures req.user.Some? ==> out == Json(OK, PublicView(req.user.value.Data()), SUCCESS)
    ensures req.user.None? ==> out == NextWith(TypeErrorOnUndefined("transform"))
  {
    if req.user.None? {
      return NextWith(TypeErrorOnUndefined("transform"));
    }
    var view := req.user.value.Transform();
    out := Json(OK, view, SUCCESS);
  }

  /** `create`: 201 with the new user's public view, or the error passed to `next`. */
  method Create(req: Request, users: UserCollection, freshId: string, hash: string -> string) returns (out: Outcome)
    requires users.Valid() && IsDocId(freshId)
    modifies users`docs
    ensures users.Valid()
    ensures match SaveNewSpec(old(users.docs), users.fault, Instantiate(freshId, req.body), req.body.Keys * SCHEMA_PATHS, hash)
      case Rejected(e, _) => out == NextWith(CheckDuplication(e)) && users.docs == old(users.docs)
      case Inserted(saved) => out == Json(CREATED, PublicView(saved), SUCCESS) && users.docs == old(users.docs) + [saved]
  {
    var response := CreateUser(users, req.body, freshId, hash);
    match response
    case Err(e) => out := NextWith(e);
    case Ok(data) => out := Json(CREATED, data, SUCCESS);
  }

  /** `update`: merges the body into `req.locals.user` and answers with the whole (unsaved) document. */
  method Update(req: Request) returns (out: Outcome)
    modifies if req.locals.UserLocals? then {req.locals.user} else {}
    ensures req.locals.NoLocals? ==> out == NextWith(TypeErrorOnUndefined("user"))
    ensures req.locals.CachedLocals? ==> out == NextWith(CheckDuplication(TypeErrorOnUndefined("role")))
    ensures req.locals.UserLocals? ==>
      var u := req.locals.user;
      && u.attrs == UpdatedAttrs(old(u.attrs), req.body)
      && out == Json(OK, DocumentJson(u.Data()), SUCCESS)
  {
    match req.locals
    case NoLocals => out := NextWith(TypeErrorOnUndefined("user"));
    case CachedLocals(_) =>
      var response := UpdateUser(None, req.body);
      out := NextWith(response.error);
    case UserLocals(user) =>
      var response := UpdateUser(Some(user), req.body);
      out := Json(OK, DocumentJson(response.value.Data()), SUCCESS);
  }

  /** `update` as evidently intended: the same merge, answered with the public view. */
  method UpdateAnsweringTransform(req: Request) returns (out: Outcome)
    modifies if req.locals.UserLocals? then {req.locals.user} else {}
    ensures req.locals.NoLocals? ==> out == NextWith(TypeErrorOnUndefined("user"))
    ensures req.locals.CachedLocals? ==> out == NextWith(CheckDuplication(TypeErrorOnUndefined("role")))
    ensures req.locals.UserLocals? ==>
      var u := req.locals.user;
      && u.attrs == UpdatedAttrs(old(u.attrs), req.body)
      && out == Json(OK, PublicView(u.Data()), SUCCESS)
      && "password" !in out.data
  {
    match req.locals
    case NoLocals => out := NextWith(TypeErrorOnUndefined("user"));
    case CachedLocals(_) =>
      var response := UpdateUser(None, req.body);
      out := NextWith(response.error);
    case UserLocals(user) =>
      var response := UpdateUser(Some(user), req.body);
      var view := response.value.Transform();
      out := Json(OK, view, SUCCESS);
  }

  /** The update response is the stored document, so it carries the password hash that `transform` hides. */
  lemma UpdateResponseShowsPassword(d: UserData, body: map<string, Value>)
    requires "password" in d.attrs && "password" !in body
    ensures var j := DocumentJson(UserData(d.id, UpdatedAttrs(d.attrs, body)));
      "password" in j && j["password"] == d.attrs["password"]
  {
  }

  /** `remove`: 203 with no body after the record is deleted, or the error passed to `next`. */
  method Remove(req: Request, users: UserCollection) returns (out: Outcome)
    requires users.Valid()
    modifies users`docs
    ensures users.Valid()
    ensures req.locals.NoLocals? ==> out == NextWith(TypeErrorOnUndefined("user")) && users.docs == old(users.docs)
    ensures req.locals.CachedLocals? ==> out == NextWith(TypeErrorOnUndefined("remove")) && users.docs == old(users.docs)
    ensures req.locals.UserLocals? && users.fault.Some? ==>
      out == NextWith(FromStore(users.fault.value)) && users.docs == old(users.docs)
    ensures req.locals.UserLocals? && users.fault.None? ==>
      out == Ended(203) && users.docs == WithoutId(old(users.docs), req.locals.user.id)
  {
    if req.locals.NoLocals? {
      return NextWith(TypeErrorOnUndefined("user"));
    }
    var user := if req.locals.UserLocals? then Some(req.locals.user) else None;
    var removed := RemoveUser(users, user);
    match removed
    case Err(e) => out := NextWith(e);
    case Ok(_) => out := Ended(203);
  }
}
