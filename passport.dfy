/**
 * The JWT verify callback of src/config/passport.js: the token's subject is
 * looked up and the outcome handed to `done` exactly once.
 */
module Passport {
  import opened Wrappers
  import opened ApiErrors
  import opened UserModel

  /** The verified token's payload; `sub` is the user's id. */
  datatype Payload = Payload(sub: string)

  /** The arguments given to `done(err, user)`; `user` is `None` for `false`. */
  datatype Done = Done(err: Option<Thrown>, user: Option<UserDoc>)

  /** `JWT(payload, done)`: a found user, no user, or the lookup's error. */
  method Jwt(users: UserCollection, payload: Payload) returns (d: Done)
    modifies users`queries
    ensures users.queries == old(users.queries) + (if IsValidObjectId(payload.sub) then 1 else 0)
    ensures !IsValidObjectId(payload.sub) ==> d == Done(Some(CastError(payload.sub)), None)
    ensures IsValidObjectId(payload.sub) && users.fault.Some? ==> d == Done(Some(FromStore(users.fault.value)), None)
    ensures IsValidObjectId(payload.sub) && users.fault.None? ==>
      match FirstWithObjectId(users.docs, payload.sub)
      case None => d == Done(None, None)
      case Some(i) => d.err.None? && d.user.Some? && fresh(d.user.value) && d.user.value.Data() == users.docs[i]
    ensures d.err.Some? ==> d.user.None?
  {
    var found := users.FindById(payload.sub);
    match found
    case Found(user) => d := Done(None, Some(user));
    case Missing => d := Done(None, None);
    case Threw(err) => d := Done(Some(err), None);
  }
}
