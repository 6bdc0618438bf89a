/**
 * The user service of src/api/service/user.js: create through the store,
 * update in place by merging a body into the document (stripping `role`
 * unless the target user is an admin), and remove.
 */
module UserService {
  import opened Wrappers
  import opened Constants
  import opened ApiErrors
  import opened UserModel

  /** `CreateUser(userData)`: the public view of the saved user, or the save error through `checkDuplication`. */
  method CreateUser(users: UserCollection, body: map<string, Value>, freshId: string, hash: string -> string)
    returns (r: Result<map<string, Value>, Thrown>)
    requires users.Valid() && IsDocId(freshId)
    modifies users`docs
    ensures users.Valid()
    ensures match SaveNewSpec(old(users.docs), users.fault, Instantiate(freshId, body), body.Keys * SCHEMA_PATHS, hash)
      case Rejected(e, _) => r == Err(CheckDuplication(e)) && users.docs == old(users.docs)
      case Inserted(saved) => r == Ok(PublicView(saved)) && users.docs == old(users.docs) + [saved]
  {
    var user := new UserDoc(freshId, body);
    var saved := users.SaveNew(user, hash);
    match saved
    case Err(e) =>
      r := Err(CheckDuplication(e));
    case Ok(su) =>
      var view := su.Transform();
      r := Ok(view);
  }

  /** Creating a user whose email is already stored reports EMAIL_EXIST with status 404. */
  lemma TakenEmailIsEmailExist(docs: seq<UserData>, d: UserData, modified: set<string>, hash: string -> string)
    requires PassesValidation(d.attrs) && HookedAttrs(d.attrs, modified, hash).Ok?
    requires FirstWithId(docs, d.id).None? && FirstWithEmail(docs, EmailKey(d.attrs)).Some?
    ensures var o := SaveNewSpec(docs, None, d, modified, hash);
      o.Rejected? && CheckDuplication(o.error) == Api(Build(MessageAndStatus(EMAIL_EXIST, NOT_FOUND)))
  {
    var e := DuplicateKeyError("email");
    assert e.keyPattern.value == ["email"];
  }

  /** The key `omit` drops: `role` unless the target user is an admin, otherwise `''`. */
  function StrippedKey(role: Option<Value>): (k: string)
    ensures role == Some(Str(ADMIN)) <==> k == ""
  {
    if role != Some(Str(ADMIN)) then "role" else ""
  }

  /** `omit(newData, key)`. */
  function Omit(m: map<string, Value>, key: string): (r: map<string, Value>)
    ensures r.Keys == m.Keys - {key}
    ensures forall k :: k in r ==> r[k] == m[k]
  {
    map k | k in m && k != key :: m[k]
  }

  /**
   * `Object.assign(user, toUpdate)` on a document: each schema path in the
   * update goes through its setter and replaces the old value; keys that are
   * not schema paths are not stored.
   */
  function Merge(attrs: map<string, Value>, toUpdate: map<string, Value>): (r: map<string, Value>)
    ensures r.Keys == attrs.Keys + (toUpdate.Keys * SCHEMA_PATHS)
    ensures forall k :: k in toUpdate && k in SCHEMA_PATHS ==> r[k] == ApplySetter(k, toUpdate[k])
    ensures forall k :: k in attrs && !(k in toUpdate && k in SCHEMA_PATHS) ==> r[k] == attrs[k]
  {
    attrs + map k | k in toUpdate.Keys * SCHEMA_PATHS :: ApplySetter(k, toUpdate[k])
  }

  /** The body keys an update writes: schema paths, and `role` only when the target is an admin. */
  function TakenKeys(attrs: map<string, Value>, newData: map<string, Value>): set<string> {
    set k | k in newData && k in SCHEMA_PATHS && (k != "role" || Prop(attrs, "role") == Some(Str(ADMIN)))
  }

  /** The document's properties once `UpdateUser` has run. */
  function UpdatedAttrs(attrs: map<string, Value>, newData: map<string, Value>): (r: map<string, Value>)
    ensures r.Keys == attrs.Keys + (TakenKeys(attrs, newData))
    ensures forall k :: k in TakenKeys(attrs, newData) ==> r[k] == ApplySetter(k, newData[k])
    ensures forall k :: k in attrs && k !in TakenKeys(attrs, newData) ==> r[k] == attrs[k]
  {
    assert TakenKeys(attrs, newData) == Omit(newData, StrippedKey(Prop(attrs, "role"))).Keys * SCHEMA_PATHS;
    Merge(attrs, Omit(newData, StrippedKey(Prop(attrs, "role"))))
  }

  /** A target that is not an admin keeps its role whatever the body says, so an update cannot promote it. */
  lemma NonAdminKeepsRole(attrs: map<string, Value>, newData: map<string, Value>)
    requires Prop(attrs, "role") != Some(Str(ADMIN))
    ensures Prop(UpdatedAttrs(attrs, newData), "role") == Prop(attrs, "role")
    ensures Prop(UpdatedAttrs(attrs, newData), "role") != Some(Str(ADMIN))
  {
  }

  /** An admin target takes every body key, `role` included. */
  lemma AdminTakesEveryKey(attrs: map<string, Value>, newData: map<string, Value>, k: string)
    requires Prop(attrs, "role") == Some(Str(ADMIN))
    requires k in newData && k in SCHEMA_PATHS
    ensures UpdatedAttrs(attrs, newData)[k] == ApplySetter(k, newData[k])
  {
  }

  /** Body keys other than `role` overwrite; properties the body does not name keep their values. */
  lemma MergeOverwritesAndKeeps(attrs: map<string, Value>, newData: map<string, Value>, k: string)
    requires k != "role"
    ensures k in newData && k in SCHEMA_PATHS ==> UpdatedAttrs(attrs, newData)[k] == ApplySetter(k, newData[k])
    ensures k !in newData ==> Prop(UpdatedAttrs(attrs, newData), k) == Prop(attrs, k)
  {
  }

  /**
   * `UpdateUser(user, newData)`: mutates and returns the same document and
   * never saves it; a missing user makes `user.role` throw, and that error
   * goes through `checkDuplication`.
   */
  method UpdateUser(user: Option<UserDoc>, newData: map<string, Value>) returns (r: Result<UserDoc, Thrown>)
    modifies if user.Some? then {user.value} else {}
    ensures user.None? ==> r == Err(CheckDuplication(TypeErrorOnUndefined("role")))
    ensures user.Some? ==> r == Ok(user.value)
    ensures user.Some? ==> user.value.attrs == UpdatedAttrs(old(user.value.attrs), newData)
    ensures user.Some? ==> user.value.modified == old(user.value.modified) && user.value.isNew == old(user.value.isNew)
  {
    if user.None? {
      return Err(CheckDuplication(TypeErrorOnUndefined("role")));
    }
    var u := user.value;
    var role := if Prop(u.attrs, "role") != Some(Str(ADMIN)) then "role" else "";
    var userToUpdate := Omit(newData, role);
    u.attrs := Merge(u.attrs, userToUpdate);
    r := Ok(u);
  }

  /** `RemoveUser(user)`: `user.remove()`; a missing user makes the call throw. */
  method RemoveUser(users: UserCollection, user: Option<UserDoc>) returns (r: Result<UserDoc, Thrown>)
    requires users.Valid()
    modifies users`docs
    ensures users.Valid()
    ensures user.None? ==> r == Err(TypeErrorOnUndefined("remove")) && users.docs == old(users.docs)
    ensures user.Some? && users.fault.Some? ==> r == Err(FromStore(users.fault.value)) && users.docs == old(users.docs)
    ensures user.Some? && users.fault.None? ==> r == Ok(user.value) && users.docs == WithoutId(old(users.docs), user.value.id)
  {
    if user.None? {
      return Err(TypeErrorOnUndefined("remove"));
    }
    r := users.Remove(user.value);
  }
}
