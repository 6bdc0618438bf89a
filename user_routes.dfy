/**
 * The user router of src/api/routes/user.js: which guard, validator and
 * handler chain serves each method and path, the `userId` parameter hook
 * that runs `load` ahead of a matched `/:userId` route's chain, and how
 * Express walks such a chain.
 */
module UserRoutes {
  import opened Wrappers
  import opened Constants
  import opened JsText
  import opened ApiErrors
  import opened ErrorMiddleware
  import opened UserModel
  import opened AuthMiddleware

  datatype Verb = GET | POST | PUT | PATCH | DELETE

  /** One middleware in a chain. */
  datatype Step =
    | Guard(roles: Roles)                  // Authorize(roles)
    | Validate(schema: string)             // Validate(schema)
    | Upload(field: string)                // upload.single(field)
    | Handle(name: string)                 // a controller export
    | FourArgHandle(name: string)          // a controller export declared with four parameters
    | ParamHook(param: string, name: string)  // app.param(param, handler)

  datatype Route = Route(verb: Verb, pattern: string, chain: seq<Step>)

  const USER_ID: string := "userId"

  /** The routes, in registration order. */
  const ROUTES: seq<Route> := [
    Route(GET, "/", [Guard(RoleString(ADMIN)), Validate("listUsers"), FourArgHandle("load")]),
    Route(POST, "/", [Guard(RoleString(ADMIN)), Validate("createUser"), Handle("create")]),
    Route(GET, "/profile", [Guard(DEFAULT_ROLES), Handle("loggedIn")]),
    Route(GET, "/:userId", [Guard(RoleString(LOGGED_IN)), Handle("get")]),
    Route(PUT, "/:userId", [Guard(RoleString(LOGGED_IN)), Validate("replaceUser"), Handle("replace")]),
    Route(PATCH, "/:userId", [Guard(RoleString(LOGGED_IN)), Validate("updateUser"), Handle("update")]),
    Route(DELETE, "/:userId", [Guard(RoleString(LOGGED_IN)), Handle("remove")]),
    Route(POST, "/upload", [Upload("profile"), Handle("upload")])
  ]

  /** `app.param('userId', controller.load)`. */
  const PARAM_HANDLERS: map<string, string> := map[USER_ID := "load"]

  /** A single path segment: non-empty and without '/'. */
  predicate IsSegment(s: string) {
    s != [] && '/' !in s
  }

  /** A pattern `/:name` binds one segment to the parameter `name`. */
  predicate IsParamPattern(pattern: string) {
    |pattern| >= 2 && pattern[0] == '/' && pattern[1] == ':'
  }

  /**
   * Path matching for these patterns: `/:name` takes one segment as the
   * parameter, any other pattern matches itself ignoring case. A router is
   * case-insensitive by default, through a RegExp with the `i` flag and
   * without the `u` flag; such a RegExp folds case only by upper-casing
   * single characters and never maps a non-ASCII character to an ASCII one,
   * so for these ASCII patterns ASCII lowering is that comparison.
   */
  function MatchPath(pattern: string, path: string): (params: Option<map<string, string>>)
    ensures params.Some? && IsParamPattern(pattern) ==>
      |path| >= 1 && path[0] == '/' && IsSegment(path[1..]) && params.value == map[pattern[2..] := path[1..]]
    ensures IsParamPattern(pattern) && |path| >= 1 && path[0] == '/' && IsSegment(path[1..]) ==> params.Some?
    ensures !IsParamPattern(pattern) ==> (params.Some? <==> ToLower(pattern) == ToLower(path))
    ensures !IsParamPattern(pattern) && params.Some? ==> params.value == map[]
  {
    if IsParamPattern(pattern) then
      if |path| >= 1 && path[0] == '/' && IsSegment(path[1..]) then Some(map[pattern[2..] := path[1..]]) else None
    else if ToLower(pattern) == ToLower(path) then Some(map[]) else None
  }

  /** The first route, in registration order, that serves this method and path, with its parameters. */
  function Dispatch(routes: seq<Route>, verb: Verb, path: string): (r: Option<(Route, map<string, string>)>)
    ensures r.Some? ==> r.value.0 in routes && r.value.0.verb == verb && MatchPath(r.value.0.pattern, path) == Some(r.value.1)
    ensures r.None? ==> forall k :: 0 <= k < |routes| && routes[k].verb == verb ==> MatchPath(routes[k].pattern, path).None?
  {
    if routes == [] then None
    else if routes[0].verb == verb && MatchPath(routes[0].pattern, path).Some? then
      Some((routes[0], MatchPath(routes[0].pattern, path).value))
    else Dispatch(routes[1..], verb, path)
  }

  /** `/` matches only itself: a longer path never matches it. */
  lemma RootPatternMatchesOnlyRoot(path: string)
    requires |path| >= 2
    ensures MatchPath("/", path).None?
  {
    assert !IsParamPattern("/");
    assert |ToLower("/")| != |ToLower(path)|;
  }

  /** `/` + `id` matches a literal lower-case pattern `/` + `name` iff `id` lowers to `name`. */
  lemma LiteralSegmentMatch(name: string, id: string)
    requires |name| >= 1 && name[0] != ':' && forall i :: 0 <= i < |name| ==> !('A' <= name[i] <= 'Z')
    ensures MatchPath("/" + name, "/" + id).Some? <==> ToLower(id) == name
  {
    var pattern := "/" + name;
    assert pattern[1] == name[0];
    assert !IsParamPattern(pattern);
    LowerOfConcat("/", id);
    LowerOfConcat("/", name);
    LowerOfLowerCase("/");
    LowerOfLowerCase(name);
    if ToLower(pattern) == ToLower("/" + id) {
      assert ToLower(id) == ("/" + ToLower(id))[1..] == ("/" + name)[1..] == name;
    }
  }

  /** The literal patterns of the table, as `/` and a lower-case segment. */
  lemma LiteralPatterns()
    ensures "/profile" == "/" + "profile" && "/upload" == "/" + "upload"
    ensures forall i :: 0 <= i < |"profile"| ==> !('A' <= "profile"[i] <= 'Z')
    ensures forall i :: 0 <= i < |"upload"| ==> !('A' <= "upload"[i] <= 'Z')
  {
  }

  /** The `/profile` route matches `/` + `id` exactly when `id` lowers to "profile". */
  lemma ProfileRouteMatch(id: string)
    ensures MatchPath(ROUTES[2].pattern, "/" + id) == (if ToLower(id) == "profile" then Some(map[]) else None)
  {
    RouteTable();
    LiteralPatterns();
    LiteralSegmentMatch("profile", id);
    assert !IsParamPattern("/profile");
  }

  /** The index of the `/:userId` route of each method. */
  function UserIdRoute(verb: Verb): (k: nat)
    requires verb in {GET, PUT, PATCH, DELETE}
    ensures 3 <= k <= 6
  {
    match verb
    case GET => 3
    case PUT => 4
    case PATCH => 5
    case DELETE => 6
  }

  /** No route registered before the `/:userId` route of that method takes `/` + `id`. */
  lemma EarlierRoutesMiss(verb: Verb, id: string)
    requires verb in {GET, PUT, PATCH, DELETE}
    requires IsSegment(id) && (verb == GET ==> ToLower(id) != "profile")
    ensures forall j :: 0 <= j < UserIdRoute(verb) && ROUTES[j].verb == verb ==> MatchPath(ROUTES[j].pattern, "/" + id).None?
  {
    RouteTable();
    if verb == GET {
      EarlierGetRoutesMiss(id);
    } else {
      assert forall j :: 0 <= j < UserIdRoute(verb) ==> ROUTES[j].verb != verb;
    }
  }

  /** Neither `/` nor `/profile` takes `/` + `id` when `id` does not lower to "profile". */
  lemma EarlierGetRoutesMiss(id: string)
    requires IsSegment(id) && ToLower(id) != "profile"
    ensures forall j :: 0 <= j < 3 && ROUTES[j].verb == GET ==> MatchPath(ROUTES[j].pattern, "/" + id).None?
  {
    RouteTable();
    forall j | 0 <= j < 3 && ROUTES[j].verb == GET
      ensures MatchPath(ROUTES[j].pattern, "/" + id).None?
    {
      if j == 0 {
        RootPatternMatchesOnlyRoot("/" + id);
        assert ROUTES[0].pattern == "/";
      } else {
        ProfileRouteMatch(id);
        assert j == 2;
      }
    }
  }

  /** The middleware a request runs through: the parameter hook first when the route binds `userId`, then the chain. */
  function Pipeline(verb: Verb, path: string): (p: Option<seq<Step>>)
    ensures p.Some? <==> Dispatch(ROUTES, verb, path).Some?
  {
    PipelineOf(Dispatch(ROUTES, verb, path))
  }

  /** The middleware run for a dispatch result: the `userId` hook when that parameter is bound, then the chain. */
  function PipelineOf(dispatched: Option<(Route, map<string, string>)>): (p: Option<seq<Step>>)
    ensures p.Some? <==> dispatched.Some?
  {
    match dispatched
    case None => None
    case Some((route, params)) =>
      Some((if USER_ID in params then [ParamHook(USER_ID, PARAM_HANDLERS[USER_ID])] else []) + route.chain)
  }

  /** The method and pattern of each registered route. */
  lemma RouteTable()
    ensures |ROUTES| == 8
    ensures ROUTES[0].verb == GET && ROUTES[0].pattern == "/"
    ensures ROUTES[1].verb == POST && ROUTES[1].pattern == "/"
    ensures ROUTES[2].verb == GET && ROUTES[2].pattern == "/profile"
    ensures ROUTES[3].verb == GET && ROUTES[3].pattern == "/:userId"
    ensures ROUTES[4].verb == PUT && ROUTES[4].pattern == "/:userId"
    ensures ROUTES[5].verb == PATCH && ROUTES[5].pattern == "/:userId"
    ensures ROUTES[6].verb == DELETE && ROUTES[6].pattern == "/:userId"
    ensures ROUTES[7].verb == POST && ROUTES[7].pattern == "/upload"
  {
  }

  /** The pipeline of a dispatched route: its chain, after the `userId` hook when that parameter is bound. */
  lemma PipelineOfRoute(route: Route, params: map<string, string>)
    ensures USER_ID !in params ==> PipelineOf(Some((route, params))) == Some(route.chain)
    ensures USER_ID in params ==> PipelineOf(Some((route, params))) == Some([ParamHook(USER_ID, "load")] + route.chain)
  {
    assert PARAM_HANDLERS[USER_ID] == "load";
    assert [] + route.chain == route.chain;
  }

  /** `GET /` and `POST /` are guarded by the string `ADMIN`; `GET /` ends in the four-parameter `load`. */
  lemma RootIsAdminOnly()
    ensures Pipeline(GET, "/") == Some([Guard(RoleString(ADMIN)), Validate("listUsers"), FourArgHandle("load")])
    ensures Pipeline(POST, "/") == Some([Guard(RoleString(ADMIN)), Validate("createUser"), Handle("create")])
  {
    RouteTable();
    var none: map<string, string> := map[];
    assert !IsParamPattern("/") && MatchPath("/", "/") == Some(none);
    DispatchFirst(ROUTES, GET, "/", 0);
    PipelineOfRoute(ROUTES[0], none);
    DispatchFirst(ROUTES, POST, "/", 1);
    PipelineOfRoute(ROUTES[1], none);
  }

  /**
   * `GET /profile`, in any letter case, is served by its own route
   * (registered before `/:userId`) with the default roles.
   */
  lemma ProfileUsesDefaultRoles(id: string)
    requires ToLower(id) == "profile"
    ensures Pipeline(GET, "/" + id) == Some([Guard(DEFAULT_ROLES), Handle("loggedIn")])
  {
    RouteTable();
    var path := "/" + id;
    var none: map<string, string> := map[];
    RootPatternMatchesOnlyRoot(path);
    forall j | 0 <= j < 2 && ROUTES[j].verb == GET
      ensures MatchPath(ROUTES[j].pattern, path).None?
    {
      assert ROUTES[j].pattern == "/";
    }
    ProfileRouteMatch(id);
    DispatchFirst(ROUTES, GET, path, 2);
    PipelineOfRoute(ROUTES[2], none);
  }

  /**
   * A `/:userId` request runs `load` first and `Authorize(LOGGED_IN)` next,
   * with no four-parameter handler in its pipeline; for GET the segment
   * `profile`, in any letter case, is taken by the profile route instead.
   */
  lemma UserIdRoutesRunLoadThenLoggedIn(verb: Verb, id: string)
    requires verb in {GET, PUT, PATCH, DELETE}
    requires IsSegment(id) && (verb == GET ==> ToLower(id) != "profile")
    ensures var p := Pipeline(verb, "/" + id);
      && p.Some? && |p.value| >= 3
      && p.value[0] == ParamHook(USER_ID, "load")
      && p.value[1] == Guard(RoleString(LOGGED_IN))
      && forall j :: 0 <= j < |p.value| ==> !p.value[j].FourArgHandle?
  {
    UserIdPipeline(verb, id);
    UserIdChain(verb);
    var c := ROUTES[UserIdRoute(verb)].chain;
    var q := [ParamHook(USER_ID, "load")] + c;
    forall j | 0 <= j < |q|
      ensures !q[j].FourArgHandle?
    {
      if j > 0 {
        assert q[j] == c[j - 1];
      }
    }
  }

  /** The pipeline of a `/:userId` request: the hook, then that route's chain. */
  lemma UserIdPipeline(verb: Verb, id: string)
    requires verb in {GET, PUT, PATCH, DELETE}
    requires IsSegment(id) && (verb == GET ==> ToLower(id) != "profile")
    ensures Pipeline(verb, "/" + id) == Some([ParamHook(USER_ID, "load")] + ROUTES[UserIdRoute(verb)].chain)
  {
    UserIdDispatch(verb, id);
    PipelineOfRoute(ROUTES[UserIdRoute(verb)], map[USER_ID := id]);
  }

  /** Each `/:userId` chain starts with `Authorize(LOGGED_IN)` and has no four-parameter step. */
  lemma UserIdChain(verb: Verb)
    requires verb in {GET, PUT, PATCH, DELETE}
    ensures var c := ROUTES[UserIdRoute(verb)].chain;
      && |c| >= 2 && c[0] == Guard(RoleString(LOGGED_IN))
      && forall j :: 0 <= j < |c| ==> !c[j].FourArgHandle?
  {
    RouteTable();
  }

  /** A `/:userId` path is dispatched to that method's `/:userId` route, binding the segment. */
  lemma UserIdDispatch(verb: Verb, id: string)
    requires verb in {GET, PUT, PATCH, DELETE}
    requires IsSegment(id) && (verb == GET ==> ToLower(id) != "profile")
    ensures Dispatch(ROUTES, verb, "/" + id) == Some((ROUTES[UserIdRoute(verb)], map[USER_ID := id]))
  {
    RouteTable();
    var path := "/" + id;
    assert path[1..] == id;
    assert "/:userId"[2..] == USER_ID;
    var k := UserIdRoute(verb);
    assert ROUTES[k].verb == verb && ROUTES[k].pattern == "/:userId";
    assert IsParamPattern("/:userId");
    assert MatchPath("/:userId", path) == Some(map[USER_ID := id]);
    EarlierRoutesMiss(verb, id);
    DispatchFirst(ROUTES, verb, path, k);
  }

  /** Dispatch picks route `k` when it matches and no earlier route of the same verb does. */
  lemma {:induction false} DispatchFirst(routes: seq<Route>, verb: Verb, path: string, k: nat)
    requires k < |routes| && routes[k].verb == verb && MatchPath(routes[k].pattern, path).Some?
    requires forall j :: 0 <= j < k && routes[j].verb == verb ==> MatchPath(routes[j].pattern, path).None?
    ensures Dispatch(routes, verb, path) == Some((routes[k], MatchPath(routes[k].pattern, path).value))
  {
    if k > 0 && !(routes[0].verb == verb && MatchPath(routes[0].pattern, path).Some?) {
      DispatchFirst(routes[1..], verb, path, k - 1);
    }
  }

  /** `POST /upload` has no guard. */
  lemma UploadIsUnguarded()
    ensures Pipeline(POST, "/upload") == Some([Upload("profile"), Handle("upload")])
  {
    RouteTable();
    var none: map<string, string> := map[];
    RootPatternMatchesOnlyRoot("/upload");
    forall j | 0 <= j < 7 && ROUTES[j].verb == POST
      ensures MatchPath(ROUTES[j].pattern, "/upload").None?
    {
      assert ROUTES[j].pattern == "/";
    }
    UploadRouteMatch();
    DispatchFirst(ROUTES, POST, "/upload", 7);
    PipelineOfRoute(ROUTES[7], none);
  }

  /** The `/upload` route matches its own path. */
  lemma UploadRouteMatch()
    ensures MatchPath(ROUTES[7].pattern, "/upload") == Some(map[])
  {
    RouteTable();
    LiteralPatterns();
    LiteralSegmentMatch("upload", "upload");
    LowerOfLowerCase("upload");
    assert !IsParamPattern("/upload");
  }

  /** A controller export, however many parameters it declares. */
  predicate IsHandler(s: Step) {
    s.Handle? || s.FourArgHandle?
  }

  /** Each validator of the chain sits right after a guard and right before a handler. */
  predicate ValidatePlaced(chain: seq<Step>) {
    forall i :: 0 <= i < |chain| && chain[i].Validate? ==>
      0 < i < |chain| - 1 && chain[i - 1].Guard? && IsHandler(chain[i + 1])
  }

  /** In every route a validator sits right after the guard and right before the handler. */
  lemma ValidateBetweenGuardAndHandler()
    ensures forall k :: 0 <= k < |ROUTES| ==> ValidatePlaced(ROUTES[k].chain)
  {
    RouteTable();
    forall k | 0 <= k < |ROUTES| ensures ValidatePlaced(ROUTES[k].chain) {
      var c := ROUTES[k].chain;
      forall i | 0 <= i < |c| && c[i].Validate?
        ensures 0 < i < |c| - 1 && c[i - 1].Guard? && IsHandler(c[i + 1])
      {
        assert k in {0, 1, 4, 5};
        assert |c| == 3 && c[0].Guard? && IsHandler(c[2]);
      }
    }
  }

  /** A caller with role "user" is refused on `POST /` with 403 'Forbidden'. */
  lemma UserRoleCannotCreate(u: UserData)
    requires Prop(u.attrs, "role") == Some(Str(USER))
    ensures Pipeline(POST, "/") == Some([Guard(RoleString(ADMIN)), Validate("createUser"), Handle("create")])
    ensures Decide(None, Some(u), None, RoleString(ADMIN), None) == Reject(FORBIDDEN, FORBIDDEN_MESSAGE, None)
  {
    RootIsAdminOnly();
    AdminGuardOnSchemaRoles(u, USER);
  }

  // ---------------------------------------------------------------- running a chain

  /** How one middleware finishes: it answers, calls `next()`, or calls `next(err)`. */
  datatype StepResult = Responded | Passed | PassedError(error: Thrown)

  /** How a walk over a chain ends. */
  datatype ChainEnd =
    | Answered(at: nat)                         // the step at `at` answered
    | FellThrough                               // next() past the last step
    | FellThroughWithError(error: Thrown)       // next(err) past the last step
    | CalledAsErrorHandler(at: nat, error: Thrown)  // a four-parameter step was given the error

  /** The steps run as ordinary middleware, in order, and how the walk ended. */
  datatype Trace = Trace(ran: seq<nat>, end: ChainEnd)

  /**
   * Express's walk over a chain from step `i`, `err` being the error pending.
   * An ordinary call skips a step declared with four parameters; with an
   * error pending, every step except those is skipped, and the first of
   * those is called as the error handler `(err, req, res, next)`.
   * `run` says how each ordinary step finishes. A parameter hook that passes
   * an error makes Express skip the rest of the route, which is what the
   * error-mode walk does for a chain without four-parameter steps.
   */
  function RunChain(chain: seq<Step>, i: nat, err: Option<Thrown>, run: Step -> StepResult): (t: Trace)
    requires i <= |chain|
    ensures forall k :: k in t.ran ==> i <= k < |chain| && !chain[k].FourArgHandle?
    ensures forall a, b :: 0 <= a < b < |t.ran| ==> t.ran[a] < t.ran[b]
    ensures t.end.Answered? ==> i <= t.end.at < |chain| && run(chain[t.end.at]) == Responded
    ensures t.end.CalledAsErrorHandler? ==> i <= t.end.at < |chain| && chain[t.end.at].FourArgHandle?
    decreases |chain| - i
  {
    if i == |chain| then Trace([], if err.None? then FellThrough else FellThroughWithError(err.value))
    else if err.Some? then
      if chain[i].FourArgHandle? then Trace([], CalledAsErrorHandler(i, err.value))
      else RunChain(chain, i + 1, err, run)
    else if chain[i].FourArgHandle? then RunChain(chain, i + 1, None, run)
    else match run(chain[i])
      case Responded => Trace([i], Answered(i))
      case Passed =>
        var t := RunChain(chain, i + 1, None, run);
        PrependKeepsIncreasing(i, t.ran);
        Trace([i] + t.ran, t.end)
      case PassedError(e) =>
        var t := RunChain(chain, i + 1, Some(e), run);
        PrependKeepsIncreasing(i, t.ran);
        Trace([i] + t.ran, t.end)
  }

  /** A step index below every later one keeps the run list increasing. */
  lemma PrependKeepsIncreasing(i: nat, ran: seq<nat>)
    requires forall k :: k in ran ==> i < k
    requires forall a, b :: 0 <= a < b < |ran| ==> ran[a] < ran[b]
    ensures forall a, b :: 0 <= a < b < |[i] + ran| ==> ([i] + ran)[a] < ([i] + ran)[b]
  {
    forall a, b | 0 <= a < b < |[i] + ran|
      ensures ([i] + ran)[a] < ([i] + ran)[b]
    {
      assert ([i] + ran)[b] == ran[b - 1] && ran[b - 1] in ran;
    }
  }

  /** With an error pending and no four-parameter step left, the walk runs nothing and passes the error on. */
  lemma {:induction false} PendingErrorFallsThrough(chain: seq<Step>, i: nat, e: Thrown, run: Step -> StepResult)
    requires i <= |chain|
    requires forall j :: i <= j < |chain| ==> !chain[j].FourArgHandle?
    ensures RunChain(chain, i, Some(e), run) == Trace([], FellThroughWithError(e))
    decreases |chain| - i
  {
    if i < |chain| {
      PendingErrorFallsThrough(chain, i + 1, e, run);
    }
  }

  /**
   * What the application does after the routers (src/config/express.js:62-68):
   * a pending error goes to `ConvertError`, otherwise `NotFound` answers 404.
   * When `ConvertError` itself throws (a validation entry without a message),
   * Express passes that TypeError on, `NotFound` is skipped as a
   * three-parameter step, and `ErrorHandler`, which is `Handler`, answers.
   * `None` when the request was already answered or handed to a
   * four-parameter step inside the router.
   */
  function AppTail(end: ChainEnd, env: Option<string>): (r: Option<ErrorResponse>)
    ensures r.Some? <==> end.FellThrough? || end.FellThroughWithError?
    ensures end.FellThrough? ==> r == Some(NotFound(env))
    ensures end.FellThroughWithError? && end.error.Api? ==> r == Some(Handler(end.error, env))
    ensures end.FellThroughWithError? && WellFormed(end.error) ==> r == Some(ConvertError(end.error, env))
    ensures end.FellThroughWithError? && !WellFormed(end.error) ==>
      r == Some(Handler(MISSING_MESSAGE, env)) && r.value.status.None? && r.value.body.errors.None?
    ensures r.Some? && !(end.FellThroughWithError? && !WellFormed(end.error)) ==>
      r.value.status.Some? && r.value.body.errors.Some?
  {
    match end
    case FellThrough => Some(NotFound(env))
    case FellThroughWithError(e) =>
      if WellFormed(e) then Some(ConvertError(e, env)) else Some(Handler(MISSING_MESSAGE, env))
    case _ => None
  }

  /**
   * An admitted and valid `GET /` never reaches `load`: Express skips the
   * four-parameter handler, no later route matches `/`, and the request
   * ends at `NotFound`, 404 'Resource Not Found'.
   */
  lemma AdmittedListUsersIsNotFound(run: Step -> StepResult, env: Option<string>)
    requires run(Guard(RoleString(ADMIN))) == Passed && run(Validate("listUsers")) == Passed
    ensures Pipeline(GET, "/") == Some(ROUTES[0].chain)
    ensures RunChain(ROUTES[0].chain, 0, None, run) == Trace([0, 1], FellThrough)
    ensures forall k :: 1 <= k < |ROUTES| && ROUTES[k].verb == GET ==> MatchPath(ROUTES[k].pattern, "/").None?
    ensures AppTail(RunChain(ROUTES[0].chain, 0, None, run).end, env) == Some(NotFound(env))
  {
    RootIsAdminOnly();
    ListUsersChain();
    PassingStepsSkipLastHandler(ROUTES[0].chain, run);
    OnlyRootRoutesMatchRoot();
  }

  /** The chain of `GET /`: two ordinary steps, then the four-parameter `load`. */
  lemma ListUsersChain()
    ensures ROUTES[0].chain == [Guard(RoleString(ADMIN)), Validate("listUsers"), FourArgHandle("load")]
  {
  }

  /** Two ordinary steps that pass, then a four-parameter one: the walk skips it and falls through. */
  lemma PassingStepsSkipLastHandler(c: seq<Step>, run: Step -> StepResult)
    requires |c| == 3 && !c[0].FourArgHandle? && !c[1].FourArgHandle? && c[2].FourArgHandle?
    requires run(c[0]) == Passed && run(c[1]) == Passed
    ensures RunChain(c, 0, None, run) == Trace([0, 1], FellThrough)
  {
    assert RunChain(c, 2, None, run) == Trace([], FellThrough);
    assert RunChain(c, 1, None, run) == Trace([1], FellThrough);
  }

  /** Two ordinary steps, then a four-parameter one: an error from either hands it to the last. */
  lemma ErrorReachesLastHandler(c: seq<Step>, run: Step -> StepResult, e: Thrown)
    requires |c| == 3 && !c[0].FourArgHandle? && !c[1].FourArgHandle? && c[2].FourArgHandle?
    requires run(c[0]) == PassedError(e) || (run(c[0]) == Passed && run(c[1]) == PassedError(e))
    ensures RunChain(c, 0, None, run).end == CalledAsErrorHandler(2, e)
  {
    assert RunChain(c, 2, Some(e), run).end == CalledAsErrorHandler(2, e);
    if run(c[0]) == PassedError(e) {
      assert RunChain(c, 1, Some(e), run).end == CalledAsErrorHandler(2, e);
    } else {
      assert RunChain(c, 1, None, run).end == CalledAsErrorHandler(2, e);
    }
  }

  /** Of the GET routes, only the first takes the path `/`. */
  lemma OnlyRootRoutesMatchRoot()
    ensures forall k :: 1 <= k < |ROUTES| && ROUTES[k].verb == GET ==> MatchPath(ROUTES[k].pattern, "/").None?
  {
    RouteTable();
    assert !IsSegment("/"[1..]);
    forall k | 1 <= k < |ROUTES| && ROUTES[k].verb == GET
      ensures MatchPath(ROUTES[k].pattern, "/").None?
    {
      if k == 2 {
        assert !IsParamPattern("/profile");
        assert |ToLower("/profile")| != |ToLower("/")|;
      } else {
        assert ROUTES[k].pattern == "/:userId";
      }
    }
  }

  /** A refused or invalid `GET /` calls `load` as the error handler, the error in place of the request. */
  lemma RefusedListUsersCallsLoadWithError(run: Step -> StepResult, e: Thrown)
    requires || run(Guard(RoleString(ADMIN))) == PassedError(e)
             || (run(Guard(RoleString(ADMIN))) == Passed && run(Validate("listUsers")) == PassedError(e))
    ensures ROUTES[0].chain[2] == FourArgHandle("load")
    ensures RunChain(ROUTES[0].chain, 0, None, run).end == CalledAsErrorHandler(2, e)
  {
    ListUsersChain();
    ErrorReachesLastHandler(ROUTES[0].chain, run, e);
  }

  /** A pipeline that starts with a hook and then a guard, walked with the hook passing and the guard refusing. */
  lemma HookThenRefusingGuard(p: seq<Step>, run: Step -> StepResult, e: Thrown)
    requires |p| >= 2 && !p[0].FourArgHandle? && !p[1].FourArgHandle?
    requires forall j :: 0 <= j < |p| ==> !p[j].FourArgHandle?
    requires run(p[0]) == Passed && run(p[1]) == PassedError(e)
    ensures RunChain(p, 0, None, run) == Trace([0, 1], FellThroughWithError(e))
  {
    PendingErrorFallsThrough(p, 2, e, run);
    assert RunChain(p, 1, None, run) == Trace([1], FellThroughWithError(e));
  }

  /**
   * As written, a `/:userId` request runs `load` before the guard: when
   * `load` answers (a lookup error such as 404 'No record found'), the request
   * is answered without authorisation; when it passes and the guard refuses,
   * `load` has already run.
   */
  lemma RefusedUserIdRequestStillRunsLoad(verb: Verb, id: string, run: Step -> StepResult)
    requires verb in {GET, PUT, PATCH, DELETE}
    requires IsSegment(id) && (verb == GET ==> ToLower(id) != "profile")
    ensures Pipeline(verb, "/" + id).Some?
    ensures var p := Pipeline(verb, "/" + id).value;
      && (run(ParamHook(USER_ID, "load")) == Responded ==> RunChain(p, 0, None, run) == Trace([0], Answered(0)))
      && (run(ParamHook(USER_ID, "load")) == Passed && run(Guard(RoleString(LOGGED_IN))).PassedError? ==>
            RunChain(p, 0, None, run) == Trace([0, 1], FellThroughWithError(run(Guard(RoleString(LOGGED_IN))).error)))
  {
    UserIdRoutesRunLoadThenLoggedIn(verb, id);
    var p := Pipeline(verb, "/" + id).value;
    var g := run(Guard(RoleString(LOGGED_IN)));
    if run(ParamHook(USER_ID, "load")) == Passed && g.PassedError? {
      HookThenRefusingGuard(p, run, g.error);
    }
  }

  /** The guard moved ahead of the parameter hook. */
  function GuardFirst(p: seq<Step>): (g: seq<Step>)
    ensures |g| == |p| && multiset(g) == multiset(p)
    ensures |p| >= 2 && p[0].ParamHook? ==> g[0] == p[1] && g[1] == p[0] && g[2..] == p[2..]
    ensures !(|p| >= 2 && p[0].ParamHook?) ==> g == p
  {
    if |p| >= 2 && p[0].ParamHook? then
      assert p == [p[0], p[1]] + p[2..];
      [p[1], p[0]] + p[2..]
    else p
  }

  /**
   * With the guard first, `load` runs only for an admitted request: a
   * refusing guard ends the walk before the hook, and an admitting one is
   * followed by the hook.
   */
  lemma GuardFirstRunsLoadOnlyWhenAllowed(verb: Verb, id: string, run: Step -> StepResult)
    requires verb in {GET, PUT, PATCH, DELETE}
    requires IsSegment(id) && (verb == GET ==> ToLower(id) != "profile")
    ensures Pipeline(verb, "/" + id).Some? && |Pipeline(verb, "/" + id).value| >= 2
    ensures var g := GuardFirst(Pipeline(verb, "/" + id).value);
      && g[0] == Guard(RoleString(LOGGED_IN)) && g[1] == ParamHook(USER_ID, "load")
      && (run(Guard(RoleString(LOGGED_IN))).PassedError? ==>
            RunChain(g, 0, None, run) == Trace([0], FellThroughWithError(run(Guard(RoleString(LOGGED_IN))).error)))
      && (run(Guard(RoleString(LOGGED_IN))) == Passed && run(ParamHook(USER_ID, "load")) == Passed ==>
            var t := RunChain(g, 0, None, run); |t.ran| >= 2 && t.ran[0] == 0 && t.ran[1] == 1)
  {
    UserIdRoutesRunLoadThenLoggedIn(verb, id);
    GuardFirstWalk(Pipeline(verb, "/" + id).value, run);
  }

  /** Walking a hook-first pipeline with its first two steps swapped. */
  lemma GuardFirstWalk(p: seq<Step>, run: Step -> StepResult)
    requires |p| >= 2 && p[0].ParamHook?
    requires forall j :: 0 <= j < |p| ==> !p[j].FourArgHandle?
    ensures var g := GuardFirst(p);
      && (run(p[1]).PassedError? ==> RunChain(g, 0, None, run) == Trace([0], FellThroughWithError(run(p[1]).error)))
      && (run(p[1]) == Passed && run(p[0]) == Passed ==>
            var t := RunChain(g, 0, None, run); |t.ran| >= 2 && t.ran[0] == 0 && t.ran[1] == 1)
  {
    var g := GuardFirst(p);
    forall j | 0 <= j < |g|
      ensures !g[j].FourArgHandle?
    {
      if j >= 2 {
        assert g[j] == g[2..][j - 2] == p[2..][j - 2] == p[j];
      }
    }
    if run(p[1]).PassedError? {
      PendingErrorFallsThrough(g, 1, run(p[1]).error, run);
    } else if run(p[1]) == Passed && run(p[0]) == Passed {
      var t2 := RunChain(g, 2, None, run);
      assert RunChain(g, 1, None, run) == Trace([1] + t2.ran, t2.end);
    }
  }
}
