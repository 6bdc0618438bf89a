/**
 * The authorization middleware of src/middleware/auth.js: `handleJWT`
 * turns the JWT strategy's outcome and a roles declaration into allow
 * (with `req.user` set), 401 or 403, and `Authorize` supplies the default
 * roles.
 */
module AuthMiddleware {
  import opened Wrappers
  import opened Constants
  import opened JsText
  import opened ApiErrors
  import opened UserModel
  import opened Http

  /** A roles declaration: a string (the `LOGGED_IN` marker or a role such as `ADMIN`) or an array of roles. */
  datatype Roles = RoleString(s: string) | RoleList(items: seq<string>)

  /** `Authorize()` without an argument. */
  const DEFAULT_ROLES: Roles := RoleList(ROLES)

  /** A `false` user from the strategy carries an informational Error (for instance a missing or expired token). */
  datatype Info = Info(message: string, stack: Option<string>)

  /**
   * `roles.includes(user.role)`: on a string this is substring containment of
   * the role's string form, on an array it is membership.
   */
  function RoleIncludes(roles: Roles, role: Option<Value>): (b: bool)
    ensures roles.RoleString? ==> (b <==> exists i :: OccursAt(roles.s, JsString(role), i))
    ensures roles.RoleList? ==> (b <==> role.Some? && role.value.Str? && role.value.s in roles.items)
  {
    match roles
    case RoleString(s) => IncludesIff(s, JsString(role)); Includes(s, JsString(role))
    case RoleList(items) => role.Some? && role.value.Str? && role.value.s in items
  }

  /** The message of `err || info`, or 'Unauthorized' when both are absent. */
  function FailureMessage(err: Option<Thrown>, info: Option<Info>): (m: string)
    ensures err.Some? ==> m == MessageOf(err.value)
    ensures err.None? && info.Some? ==> m == info.value.message
    ensures err.None? && info.None? ==> m == "Unauthorized"
  {
    if err.Some? then MessageOf(err.value) else if info.Some? then info.value.message else "Unauthorized"
  }

  /** The stack of `err || info`. */
  function FailureStack(err: Option<Thrown>, info: Option<Info>): (st: Option<string>)
    ensures err.Some? ==> st == StackOf(err.value)
    ensures err.None? && info.Some? ==> st == info.value.stack
    ensures err.None? && info.None? ==> st.None?
  {
    if err.Some? then StackOf(err.value) else if info.Some? then info.value.stack else None
  }

  predicate IsAdmin(u: UserData) {
    Prop(u.attrs, "role") == Some(Str(ADMIN))
  }

  const FORBIDDEN_MESSAGE: string := "Forbidden"

  datatype Decision = Allow | Reject(status: int, message: string, stack: Option<string>)

  /** The decision `handleJWT` takes; `userIdParam` is `req.params.userId`. */
  function Decide(err: Option<Thrown>, user: Option<UserData>, info: Option<Info>, roles: Roles,
                  userIdParam: Option<string>): (d: Decision)
    ensures (err.Some? || user.None?) <==> (d.Reject? && d.status == UNAUTHORIZED)
    ensures d.Reject? ==> d.status == UNAUTHORIZED || (d.status == FORBIDDEN && d.message == FORBIDDEN_MESSAGE)
    ensures d.Allow? ==> err.None? && user.Some?
  {
    if err.Some? || user.None? then Reject(UNAUTHORIZED, FailureMessage(err, info), FailureStack(err, info))
    else if roles == RoleString(LOGGED_IN) then
      if !IsAdmin(user.value) && userIdParam != Some(user.value.id)
      then Reject(FORBIDDEN, FORBIDDEN_MESSAGE, FailureStack(err, info))
      else Allow
    else if !RoleIncludes(roles, Prop(user.value.attrs, "role"))
    then Reject(FORBIDDEN, FORBIDDEN_MESSAGE, FailureStack(err, info))
    else Allow
  }

  /** The APIError passed to `next` for a rejection. */
  function RejectionError(d: Decision): (e: ErrorValue)
    requires d.Reject?
    ensures e.status == d.status && e.message == d.message && e.stack == d.stack && e.errors == [] && !e.isPublic
  {
    Build(ErrorArgs(d.message, d.stack, None, Some(d.status), None))
  }

  /** An error, or no user, is a 401 carrying the message of `err || info`, else 'Unauthorized'. */
  lemma UnauthenticatedIs401(err: Option<Thrown>, user: Option<UserData>, info: Option<Info>, roles: Roles,
                             userIdParam: Option<string>)
    requires err.Some? || user.None?
    ensures var d := Decide(err, user, info, roles, userIdParam);
      && d.Reject? && d.status == UNAUTHORIZED
      && (err.Some? ==> d.message == MessageOf(err.value) && d.stack == StackOf(err.value))
      && (err.None? && info.Some? ==> d.message == info.value.message && d.stack == info.value.stack)
      && (err.None? && info.None? ==> d.message == "Unauthorized" && d.stack.None?)
  {
  }

  /** With a user and no error, `info` never decides between allow and reject. */
  lemma InfoDoesNotBlockUser(u: UserData, info: Option<Info>, roles: Roles, userIdParam: Option<string>)
    ensures Decide(None, Some(u), info, roles, userIdParam).Allow?
        <==> Decide(None, Some(u), None, roles, userIdParam).Allow?
  {
  }

  /** `LOGGED_IN`: an admin passes for any `userId`; anyone else passes iff `userId` is their own id, else 403. */
  lemma LoggedInRule(u: UserData, info: Option<Info>, userIdParam: Option<string>)
    ensures var d := Decide(None, Some(u), info, RoleString(LOGGED_IN), userIdParam);
      && (IsAdmin(u) ==> d == Allow)
      && (!IsAdmin(u) ==> (d == Allow <==> userIdParam == Some(u.id)))
      && (d.Reject? ==> d.status == FORBIDDEN && d.message == FORBIDDEN_MESSAGE)
  {
  }

  /** Any other declaration: allowed iff it includes the user's role, else 403 'Forbidden'. */
  lemma RolesRule(u: UserData, info: Option<Info>, roles: Roles, userIdParam: Option<string>)
    requires roles != RoleString(LOGGED_IN)
    ensures var d := Decide(None, Some(u), info, roles, userIdParam);
      && (d == Allow <==> RoleIncludes(roles, Prop(u.attrs, "role")))
      && (d.Reject? ==> d.status == FORBIDDEN && d.message == FORBIDDEN_MESSAGE)
  {
  }

  /** The array guard `[ADMIN]` admits exactly the users whose role is "admin". */
  lemma AdminListGuardIsExact(u: UserData, info: Option<Info>, userIdParam: Option<string>)
    ensures Decide(None, Some(u), info, RoleList([ADMIN]), userIdParam) == Allow <==> IsAdmin(u)
  {
    RolesRule(u, info, RoleList([ADMIN]), userIdParam);
  }

  /** Among the schema's roles, the string guard `ADMIN` admits exactly "admin". */
  lemma AdminGuardOnSchemaRoles(u: UserData, role: string)
    requires role in ROLES && Prop(u.attrs, "role") == Some(Str(role))
    ensures Decide(None, Some(u), None, RoleString(ADMIN), None).Allow? <==> role == ADMIN
  {
    if role == USER {
      assert ADMIN[..|USER|][0] != USER[0];
      assert ADMIN[1..][..|USER|][0] != USER[0];
      assert !Includes(ADMIN, USER);
      IncludesIff(ADMIN, USER);
      assert Decide(None, Some(u), None, RoleString(ADMIN), None).Reject?;
    } else {
      assert OccursAt(ADMIN, ADMIN, 0);
    }
  }

  /** Because the string guard tests containment, a role such as "adm" (or the empty string) passes `ADMIN`. */
  lemma AdminGuardAdmitsSubstrings(u: UserData)
    requires Prop(u.attrs, "role") in {Some(Str("adm")), Some(Str(""))}
    ensures Decide(None, Some(u), None, RoleString(ADMIN), None) == Allow
  {
    var r := JsString(Prop(u.attrs, "role"));
    assert OccursAt(ADMIN, r, 0);
  }

  /** A user without a role is refused by the string guard: "undefined" is not part of "admin". */
  lemma AdminGuardRefusesMissingRole(u: UserData)
    requires "role" !in u.attrs
    ensures Decide(None, Some(u), None, RoleString(ADMIN), None).Reject?
  {
    IncludesIff(ADMIN, "undefined");
  }

  /** `Authorize()` admits every user whose role is one of the schema's roles, and no other. */
  lemma DefaultRolesAdmitSchemaRoles(u: UserData, info: Option<Info>, userIdParam: Option<string>)
    ensures Decide(None, Some(u), info, DEFAULT_ROLES, userIdParam) == Allow
        <==> (exists r :: r in ROLES && Prop(u.attrs, "role") == Some(Str(r)))
  {
  }

  function DataOf(user: Option<UserDoc>): Option<UserData>
    reads if user.Some? then {user.value} else {}
  {
    if user.Some? then Some(user.value.Data()) else None
  }

  function ParamOf(params: map<string, string>, name: string): Option<string> {
    if name in params then Some(params[name]) else None
  }

  /**
   * `handleJWT(req, res, next, roles)(err, user, info)`: builds the 401
   * APIError, turns it into a 403 for a refused role, or sets `req.user`
   * and continues.
   */
  method HandleJwt(req: Request, roles: Roles, err: Option<Thrown>, user: Option<UserDoc>, info: Option<Info>)
    returns (out: Outcome)
    modifies req`user
    ensures var d := Decide(err, DataOf(user), info, roles, ParamOf(req.params, "userId"));
      && (d.Allow? ==> out == Next && req.user == user)
      && (d.Reject? ==> out == NextWith(Api(RejectionError(d))) && req.user == old(req.user))
  {
    var apiError := new APIError(ErrorArgs(FailureMessage(err, info), FailureStack(err, info), None,
                                           Some(UNAUTHORIZED), None));
    if err.Some? || user.None? {
      return NextWith(Api(apiError.View()));
    }
    var u := user.value;
    if roles == RoleString(LOGGED_IN) {
      if Prop(u.attrs, "role") != Some(Str(ADMIN)) && ParamOf(req.params, "userId") != Some(u.id) {
        apiError.status := FORBIDDEN;
        apiError.message := FORBIDDEN_MESSAGE;
        return NextWith(Api(apiError.View()));
      }
    } else if !RoleIncludes(roles, Prop(u.attrs, "role")) {
      apiError.status := FORBIDDEN;
      apiError.message := FORBIDDEN_MESSAGE;
      return NextWith(Api(apiError.View()));
    }
    req.user := user;
    out := Next;
  }
}
