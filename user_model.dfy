/**
 * The user model of src/api/models/user.js: the schema (paths, setters,
 * defaults, validators), the pre-save password hook, the `transform` and
 * `token` methods and the statics `get`, `ValidateUserAndGenerateToken` and
 * `checkDuplication`, over a users collection held as state.
 */
module UserModel {
  import opened Wrappers
  import opened Constants
  import opened JsText
  import opened ApiErrors

  /** A property value of a user document or of a request body. */
  datatype Value = Str(s: string) | Bool(b: bool)

  /** `String(v)` and template-literal rendering; `None` is `undefined`. */
  function JsString(v: Option<Value>): string {
    match v
    case None => "undefined"
    case Some(Str(s)) => s
    case Some(Bool(b)) => if b then "true" else "false"
  }

  /** A user as stored and as serialised to JSON: the `_id` (as its hex string) and the other properties. */
  datatype UserData = UserData(id: string, attrs: map<string, Value>)

  const SCHEMA_PATHS: set<string> := {"email", "name", "photo", "role", "password", "active"}
  const DEFAULTED_PATHS: set<string> := {"photo", "role", "active"}
  const PUBLIC_FIELDS: seq<string> := ["id", "name", "email", "photo", "role", "active"]
  const PASSWORD_MIN_LENGTH := 8

  // ---------------------------------------------------------------- schema

  /** The schema's setters: `email` is lowercased and trimmed, `name` is trimmed. */
  function ApplySetter(path: string, v: Value): (w: Value)
    ensures path != "email" && path != "name" ==> w == v
    ensures !v.Str? ==> w == v
    ensures path == "email" && v.Str? ==> w == Str(Trim(ToLower(v.s)))
    ensures path == "name" && v.Str? ==> w == Str(Trim(v.s))
  {
    if path == "email" && v.Str? then Str(Trim(ToLower(v.s)))
    else if path == "name" && v.Str? then Str(Trim(v.s))
    else v
  }

  function SchemaDefaults(): map<string, Value> {
    map["photo" := Str(DEFAULT_IMAGE), "role" := Str(USER), "active" := Bool(true)]
  }

  /**
   * The state of `new User(body)`: only schema paths are kept, each through
   * its setter, and `photo`, `role` and `active` take their defaults when
   * the body leaves them out.
   */
  function Instantiate(id: string, body: map<string, Value>): (d: UserData)
    ensures d.id == id
    ensures d.attrs.Keys == (body.Keys * SCHEMA_PATHS) + DEFAULTED_PATHS
    ensures forall k :: k in body && k in SCHEMA_PATHS ==> d.attrs[k] == ApplySetter(k, body[k])
    ensures "photo" !in body ==> d.attrs["photo"] == Str(DEFAULT_IMAGE)
    ensures "role" !in body ==> d.attrs["role"] == Str(USER)
    ensures "active" !in body ==> d.attrs["active"] == Bool(true)
  {
    UserData(id, SchemaDefaults() + map k | k in body.Keys * SCHEMA_PATHS :: ApplySetter(k, body[k]))
  }

  /** No ASCII capital letter occurs in `s`. */
  predicate NoUpper(s: string) {
    forall i :: 0 <= i < |s| ==> !('A' <= s[i] <= 'Z')
  }

  lemma LowerHasNoUpper(raw: string)
    ensures NoUpper(ToLower(raw))
  {
    var lowered := ToLower(raw);
    forall i | 0 <= i < |lowered| ensures !('A' <= lowered[i] <= 'Z') {
      assert lowered[i] == LowerChar(raw[i]);
    }
  }

  lemma TrimKeepsNoUpper(s: string)
    requires NoUpper(s)
    ensures NoUpper(Trim(s))
  {
    var t := TrimStart(s);
    assert NoUpper(t) by {
      forall i | 0 <= i < |t| ensures !('A' <= t[i] <= 'Z') {
        assert t[i] == s[|s| - |t| + i];
      }
    }
    var r := TrimEnd(t);
    assert r == Trim(s);
    forall i | 0 <= i < |r| ensures !('A' <= r[i] <= 'Z') {
      assert r[i] == t[i];
    }
  }

  /** The email setter yields a lowercase (ASCII) address without surrounding white space. */
  lemma EmailSetterNormalises(raw: string)
    ensures var e := ApplySetter("email", Str(raw));
      && e.Str?
      && NoUpper(e.s)
      && (e.s != [] ==> !IsJsSpace(e.s[0]) && !IsJsSpace(e.s[|e.s| - 1]))
      && exists i :: TrimmedAt(ToLower(raw), e.s, i)
  {
    LowerHasNoUpper(raw);
    TrimKeepsNoUpper(ToLower(raw));
    TrimIsSlice(ToLower(raw));
    assert ApplySetter("email", Str(raw)) == Str(Trim(ToLower(raw)));
  }

  /** The `required` validator of a String path: present and not the empty string. */
  predicate Present(attrs: map<string, Value>, path: string) {
    path in attrs && attrs[path] != Str("")
  }

  /** The schema's validators, in path order: the paths that fail. */
  function ValidationFailures(attrs: map<string, Value>): (failed: seq<string>)
    ensures (forall p :: p in failed ==> p in ["email", "name", "role", "password"])
  {
    (if Present(attrs, "email") then [] else ["email"])
    + (if Present(attrs, "name") then [] else ["name"])
    + (if "role" !in attrs || (attrs["role"].Str? && attrs["role"].s in ROLES) then [] else ["role"])
    + (if Present(attrs, "password") && (attrs["password"].Str? ==> |attrs["password"].s| >= PASSWORD_MIN_LENGTH)
       then [] else ["password"])
  }

  predicate PassesValidation(attrs: map<string, Value>) {
    ValidationFailures(attrs) == []
  }

  /** A document that passes validation has a role among ROLES and a plaintext password of at least eight characters. */
  lemma ValidDocumentShape(attrs: map<string, Value>)
    requires PassesValidation(attrs)
    ensures "email" in attrs && "name" in attrs && "password" in attrs
    ensures "role" in attrs ==> attrs["role"].Str? && attrs["role"].s in ROLES
    ensures attrs["password"].Str? ==> |attrs["password"].s| >= PASSWORD_MIN_LENGTH
  {
  }

  /** Mongoose's ValidationError; Mongoose appends per-path details to this message. */
  const MONGOOSE_VALIDATION_ERROR: Thrown :=
    Foreign("ValidationError", "users validation failed", None, None, None, None)

  /** bcrypt rejects a non-string argument. */
  const BCRYPT_ILLEGAL_ARGUMENTS: Thrown :=
    Foreign("Error", "Illegal arguments", None, None, None, None)

  /**
   * The pre-save hook: when `password` was modified it is replaced by its
   * hash; otherwise nothing changes; a non-string password makes bcrypt fail.
   */
  function HookedAttrs(attrs: map<string, Value>, modified: set<string>, hash: string -> string)
    : (r: Result<map<string, Value>, Thrown>)
    ensures "password" !in modified ==> r == Ok(attrs)
    ensures "password" in modified && "password" in attrs && attrs["password"].Str? ==>
              r == Ok(attrs["password" := Str(hash(attrs["password"].s))])
    ensures "password" in modified && !("password" in attrs && attrs["password"].Str?) ==>
              r == Err(BCRYPT_ILLEGAL_ARGUMENTS)
  {
    if "password" !in modified then Ok(attrs)
    else if "password" in attrs && attrs["password"].Str? then
      Ok(attrs["password" := Str(hash(attrs["password"].s))])
    else Err(BCRYPT_ILLEGAL_ARGUMENTS)
  }

  /** The hook touches the password and nothing else. */
  lemma HookChangesOnlyPassword(attrs: map<string, Value>, modified: set<string>, hash: string -> string, k: string)
    requires HookedAttrs(attrs, modified, hash).Ok? && k != "password"
    ensures var a := HookedAttrs(attrs, modified, hash).value;
      a.Keys == attrs.Keys && (k in attrs ==> a[k] == attrs[k])
  {
  }

  // ---------------------------------------------------------------- transform and token

  /** `this[field]` for one of the public fields: `id` is the `_id` string, the others are stored properties. */
  predicate Readable(d: UserData, f: string) {
    f == "id" || f in d.attrs
  }

  function FieldValue(d: UserData, f: string): Value
    requires Readable(d, f)
  {
    if f == "id" then Str(d.id) else d.attrs[f]
  }

  /** What `transform()` returns: the six public fields that are defined, never the password. */
  function PublicView(d: UserData): (v: map<string, Value>)
    ensures "password" !in v
    ensures v.Keys <= {"id", "name", "email", "photo", "role", "active"}
    ensures "id" in v && v["id"] == Str(d.id)
    ensures forall f :: f in v && f != "id" ==> f in d.attrs && v[f] == d.attrs[f]
    ensures forall f :: f in PUBLIC_FIELDS && f in d.attrs && f != "id" ==> f in v
  {
    map f | f in PUBLIC_FIELDS && Readable(d, f) :: FieldValue(d, f)
  }

  /** A freshly built user exposes all six public fields, with the schema defaults in place. */
  lemma NewUserPublicView(id: string, body: map<string, Value>)
    requires "email" in body && "name" in body
    ensures var v := PublicView(Instantiate(id, body));
      && "id" in v && "name" in v && "email" in v && "photo" in v && "role" in v && "active" in v
      && ("role" !in body ==> v["role"] == Str(USER))
      && ("active" !in body ==> v["active"] == Bool(true))
      && ("photo" !in body ==> v["photo"] == Str(DEFAULT_IMAGE))
  {
    var d := Instantiate(id, body);
    NewUserHasPublicFields(id, body);
    PublicViewOfCompleteDoc(d);
  }

  lemma NewUserHasPublicFields(id: string, body: map<string, Value>)
    requires "email" in body && "name" in body
    ensures var d := Instantiate(id, body);
      "email" in d.attrs && "name" in d.attrs && "photo" in d.attrs && "role" in d.attrs && "active" in d.attrs
  {
    var d := Instantiate(id, body);
    assert "email" in body.Keys * SCHEMA_PATHS && "name" in body.Keys * SCHEMA_PATHS;
    assert "photo" in DEFAULTED_PATHS && "role" in DEFAULTED_PATHS && "active" in DEFAULTED_PATHS;
  }

  lemma PublicViewOfCompleteDoc(d: UserData)
    requires "email" in d.attrs && "name" in d.attrs && "photo" in d.attrs && "role" in d.attrs && "active" in d.attrs
    ensures var v := PublicView(d);
      && "id" in v && "name" in v && "email" in v && "photo" in v && "role" in v && "active" in v
      && v["role"] == d.attrs["role"] && v["active"] == d.attrs["active"] && v["photo"] == d.attrs["photo"]
  {
    assert PUBLIC_FIELDS[1] == "name" && PUBLIC_FIELDS[2] == "email" && PUBLIC_FIELDS[3] == "photo";
    assert PUBLIC_FIELDS[4] == "role" && PUBLIC_FIELDS[5] == "active";
  }

  /** The claims of an access token. */
  datatype Claims = Claims(sub: string, iat: int, exp: int)

  /** `token()`'s payload: subject is the user id, issued now, expiring `minutes` minutes later (one clock reading). */
  function AccessClaims(sub: string, now: int, minutes: nat): (c: Claims)
    ensures c.sub == sub && c.iat == now
    ensures c.exp - c.iat == 60 * minutes && c.exp >= c.iat
  {
    Claims(sub, now, now + 60 * minutes)
  }

  // ---------------------------------------------------------------- documents

  /** A Mongoose user document: an object whose properties are reassigned in place. */
  class UserDoc {
    const id: string
    var attrs: map<string, Value>
    var modified: set<string>
    var isNew: bool

    function Data(): UserData
      reads this
    {
      UserData(id, attrs)
    }

    /** `new User(body)` with a freshly generated `_id`. */
    constructor (freshId: string, body: map<string, Value>)
      requires IsDocId(freshId)
      ensures Data() == Instantiate(freshId, body)
      ensures modified == body.Keys * SCHEMA_PATHS && isNew
    {
      id := freshId;
      attrs := Instantiate(freshId, body).attrs;
      modified := body.Keys * SCHEMA_PATHS;
      isNew := true;
    }

    /** A document built from a stored record by a query. */
    constructor Hydrate(d: UserData)
      ensures Data() == d && modified == {} && !isNew
    {
      id := d.id;
      attrs := d.attrs;
      modified := {};
      isNew := false;
    }

    /** `transform()`: copies the public fields one by one. */
    method Transform() returns (r: map<string, Value>)
      ensures r == PublicView(Data())
    {
      r := map[];
      var i := 0;
      while i < |PUBLIC_FIELDS|
        invariant 0 <= i <= |PUBLIC_FIELDS|
        invariant forall f :: f in r <==> f in PUBLIC_FIELDS[..i] && Readable(Data(), f)
        invariant forall f :: f in r ==> r[f] == FieldValue(Data(), f)
      {
        var field := PUBLIC_FIELDS[i];
        if field == "id" {
          r := r[field := Str(id)];
        } else if field in attrs {
          r := r[field := attrs[field]];
        }
        i := i + 1;
      }
      assert PUBLIC_FIELDS[..i] == PUBLIC_FIELDS;
    }

    /** `token()`: the signed claims (signing is the `sign` parameter). */
    function Token(now: int, minutes: nat, sign: Claims -> string): string
      reads this
    {
      sign(AccessClaims(id, now, minutes))
    }

    /** The pre-save hook, run by `save()` after validation. */
    method HashPasswordHook(hash: string -> string) returns (failure: Option<Thrown>)
      modifies this`attrs
      ensures match HookedAttrs(old(attrs), modified, hash)
        case Ok(a) => failure.None? && attrs == a
        case Err(e) => failure == Some(e) && attrs == old(attrs)
    {
      if "password" !in modified {
        return None;
      }
      if "password" in attrs && attrs["password"].Str? {
        attrs := attrs["password" := Str(hash(attrs["password"].s))];
        failure := None;
      } else {
        failure := Some(BCRYPT_ILLEGAL_ARGUMENTS);
      }
    }
  }

  // ---------------------------------------------------------------- the collection

  /** `Types.ObjectId.isValid` on a string (the bson rule): twelve characters, or twenty-four hex digits. */
  predicate IsHexChar(c: char) {
    ('0' <= c <= '9') || ('a' <= c <= 'f') || ('A' <= c <= 'F')
  }

  predicate IsValidObjectId(s: string)
    ensures |s| == 12 ==> IsValidObjectId(s)
    ensures |s| != 12 && |s| != 24 ==> !IsValidObjectId(s)
    ensures |s| == 24 ==> (IsValidObjectId(s) <==> forall i :: 0 <= i < |s| ==> IsHexChar(s[i]))
  {
    |s| == 12 || (|s| == 24 && forall i :: 0 <= i < |s| ==> IsHexChar(s[i]))
  }

  /** The value of a hex digit of either case. */
  function HexCharValue(c: char): (v: int)
    requires IsHexChar(c)
    ensures 0 <= v < 16
  {
    if '0' <= c <= '9' then c as int - '0' as int
    else if 'a' <= c <= 'f' then c as int - 'a' as int + 10
    else c as int - 'A' as int + 10
  }

  /** Hex digits read two at a time, high nibble first. */
  function HexPairs(s: string): (b: seq<int>)
    requires |s| % 2 == 0 && forall i :: 0 <= i < |s| ==> IsHexChar(s[i])
    ensures |b| == |s| / 2
  {
    if s == [] then [] else [HexCharValue(s[0]) * 16 + HexCharValue(s[1])] + HexPairs(s[2..])
  }

  /** Pair `k` of the hex digits is digit `2k` as the high nibble and digit `2k + 1` as the low one. */
  lemma {:induction false} HexPairsAt(s: string, k: nat)
    requires |s| % 2 == 0 && forall i :: 0 <= i < |s| ==> IsHexChar(s[i])
    requires k < |s| / 2
    ensures HexPairs(s)[k] == HexCharValue(s[2 * k]) * 16 + HexCharValue(s[2 * k + 1])
    decreases k
  {
    if k > 0 {
      HexPairsAt(s[2..], k - 1);
      assert s[2..][2 * (k - 1)] == s[2 * k] && s[2..][2 * (k - 1) + 1] == s[2 * k + 1];
    }
  }

  /**
   * The twelve bytes of the ObjectId that a valid id string is cast to: twenty-four hex
   * digits of either case read in pairs, or a twelve-character string taken as a binary
   * string (the low byte of each character).
   */
  function ObjectIdBytes(s: string): (b: seq<int>)
    requires IsValidObjectId(s)
    ensures |b| == 12
    ensures |s| == 24 ==> b == HexPairs(s)
    ensures |s| == 12 ==> b == LowBytes(s)
  {
    if |s| == 24 then HexPairs(s) else LowBytes(s)
  }

  /** A binary string's bytes: the low byte of each character. */
  function LowBytes(s: string): (b: seq<int>)
    ensures |b| == |s|
  {
    if s == [] then [] else [s[0] as int % 256] + LowBytes(s[1..])
  }

  /** Byte `k` of a binary string is the low byte of character `k`. */
  lemma {:induction false} LowBytesAt(s: string, k: nat)
    requires k < |s|
    ensures LowBytes(s)[k] == s[k] as int % 256
    decreases k
  {
    if k > 0 {
      LowBytesAt(s[1..], k - 1);
    }
  }

  /** The bytes a string casts to, or the empty sequence for a string that does not cast. */
  function IdKey(s: string): (k: seq<int>)
    ensures |k| == 12 || k == []
    ensures IsValidObjectId(s) ==> k == ObjectIdBytes(s)
    ensures !IsValidObjectId(s) ==> k == []
  {
    if IsValidObjectId(s) then ObjectIdBytes(s) else []
  }

  /** Two strings name the same ObjectId: both cast, to the same bytes. */
  predicate SameObjectId(a: string, b: string) {
    IsValidObjectId(a) && IsValidObjectId(b) && IdKey(a) == IdKey(b)
  }

  /** A hex digit's value does not depend on its letter case. */
  lemma HexValueIgnoresCase(x: char, y: char)
    requires IsHexChar(x) && IsHexChar(y) && LowerChar(x) == LowerChar(y)
    ensures HexCharValue(x) == HexCharValue(y)
  {
  }

  /** Letter case in a twenty-four-digit id does not change the ObjectId it names. */
  lemma {:induction false} ObjectIdIgnoresHexCase(a: string, b: string)
    requires |a| == 24 && IsValidObjectId(a) && |b| == 24 && IsValidObjectId(b)
    requires ToLower(a) == ToLower(b)
    ensures SameObjectId(a, b)
  {
    var x, y := HexPairs(a), HexPairs(b);
    forall k | 0 <= k < 12
      ensures x[k] == y[k]
    {
      HexPairsAt(a, k);
      HexPairsAt(b, k);
      assert ToLower(a)[2 * k] == LowerChar(a[2 * k]) && ToLower(b)[2 * k] == LowerChar(b[2 * k]);
      assert ToLower(a)[2 * k + 1] == LowerChar(a[2 * k + 1]) && ToLower(b)[2 * k + 1] == LowerChar(b[2 * k + 1]);
      HexValueIgnoresCase(a[2 * k], b[2 * k]);
      HexValueIgnoresCase(a[2 * k + 1], b[2 * k + 1]);
    }
    assert x == y;
  }

  /** Among lowercase twenty-four-digit ids (the form a stored `_id` serialises to), the same ObjectId means the same string. */
  lemma {:induction false} LowerHexIdsAreDistinct(a: string, b: string)
    requires |a| == 24 && IsValidObjectId(a) && ToLower(a) == a
    requires |b| == 24 && IsValidObjectId(b) && ToLower(b) == b
    ensures SameObjectId(a, b) <==> a == b
  {
    if SameObjectId(a, b) {
      assert HexPairs(a) == HexPairs(b);
      forall i | 0 <= i < 24
        ensures a[i] == b[i]
      {
        var k := i / 2;
        assert HexPairs(a)[k] == HexPairs(b)[k];
        LowerPairDistinct(a, b, k);
        assert i == 2 * k || i == 2 * k + 1;
      }
    }
  }

  /** Equal pair values of two lowercase hex strings mean equal digits. */
  lemma LowerPairDistinct(a: string, b: string, k: nat)
    requires |a| == 24 && IsValidObjectId(a) && ToLower(a) == a
    requires |b| == 24 && IsValidObjectId(b) && ToLower(b) == b
    requires k < 12 && HexPairs(a)[k] == HexPairs(b)[k]
    ensures a[2 * k] == b[2 * k] && a[2 * k + 1] == b[2 * k + 1]
  {
    HexPairsAt(a, k);
    HexPairsAt(b, k);
    PairDigits(HexCharValue(a[2 * k]), HexCharValue(a[2 * k + 1]), HexCharValue(b[2 * k]), HexCharValue(b[2 * k + 1]));
    assert ToLower(a)[2 * k] == LowerChar(a[2 * k]) && ToLower(b)[2 * k] == LowerChar(b[2 * k]);
    assert ToLower(a)[2 * k + 1] == LowerChar(a[2 * k + 1]) && ToLower(b)[2 * k + 1] == LowerChar(b[2 * k + 1]);
    LowerDigitValueDistinct(a[2 * k], b[2 * k]);
    LowerDigitValueDistinct(a[2 * k + 1], b[2 * k + 1]);
  }

  lemma PairDigits(x1: int, x2: int, y1: int, y2: int)
    requires 0 <= x1 < 16 && 0 <= x2 < 16 && 0 <= y1 < 16 && 0 <= y2 < 16
    requires x1 * 16 + x2 == y1 * 16 + y2
    ensures x1 == y1 && x2 == y2
  {
  }

  lemma LowerDigitValueDistinct(x: char, y: char)
    requires IsHexChar(x) && LowerChar(x) == x && IsHexChar(y) && LowerChar(y) == y
    requires HexCharValue(x) == HexCharValue(y)
    ensures x == y
  {
  }

  /** `doc[path]`: a property, or `None` for `undefined`. */
  function Prop(attrs: map<string, Value>, path: string): (v: Option<Value>)
    ensures v.Some? <==> path in attrs
    ensures v.Some? ==> v.value == attrs[path]
  {
    if path in attrs then Some(attrs[path]) else None
  }

  /** The unique index on `email` compares the stored value; a missing email counts as null. */
  function EmailKey(attrs: map<string, Value>): Option<Value> {
    Prop(attrs, "email")
  }

  /** Index of the first record (natural order) with the given id. */
  function FirstWithId(docs: seq<UserData>, id: string): (r: Option<nat>)
    ensures r.Some? ==> r.value < |docs| && docs[r.value].id == id
    ensures r.Some? ==> forall j :: 0 <= j < r.value ==> docs[j].id != id
    ensures r.None? ==> forall j :: 0 <= j < |docs| ==> docs[j].id != id
  {
    if docs == [] then None
    else if docs[0].id == id then Some(0)
    else match FirstWithId(docs[1..], id)
      case None => None
      case Some(k) => Some(k + 1)
  }

  /** Index of the first record (natural order) whose `_id` casts to the same bytes as `id`. */
  function FirstWithObjectId(docs: seq<UserData>, id: string): (r: Option<nat>)
    ensures r.Some? ==> r.value < |docs| && IdKey(docs[r.value].id) == IdKey(id)
    ensures r.Some? ==> forall j :: 0 <= j < r.value ==> IdKey(docs[j].id) != IdKey(id)
    ensures r.None? ==> forall j :: 0 <= j < |docs| ==> IdKey(docs[j].id) != IdKey(id)
  {
    if docs == [] then None
    else if IdKey(docs[0].id) == IdKey(id) then Some(0)
    else match FirstWithObjectId(docs[1..], id)
      case None => None
      case Some(k) => Some(k + 1)
  }

  /** Index of the first record (natural order) whose email key is `key`. */
  function FirstWithEmail(docs: seq<UserData>, key: Option<Value>): (r: Option<nat>)
    ensures r.Some? ==> r.value < |docs| && EmailKey(docs[r.value].attrs) == key
    ensures r.Some? ==> forall j :: 0 <= j < r.value ==> EmailKey(docs[j].attrs) != key
    ensures r.None? ==> forall j :: 0 <= j < |docs| ==> EmailKey(docs[j].attrs) != key
  {
    if docs == [] then None
    else if EmailKey(docs[0].attrs) == key then Some(0)
    else match FirstWithEmail(docs[1..], key)
      case None => None
      case Some(k) => Some(k + 1)
  }

  /** The form of every stored `_id`: a generated ObjectId's hex string, twenty-four lowercase digits. */
  predicate IsDocId(s: string) {
    |s| == 24 && IsValidObjectId(s) && ToLower(s) == s
  }

  /**
   * What every stored record holds: an `_id` in its generated form, and the
   * defaulted paths, which `new User(...)` always fills before the first save.
   */
  predicate IsStoredRecord(d: UserData) {
    IsDocId(d.id) && DEFAULTED_PATHS <= d.attrs.Keys
  }

  /** The unique indexes on `_id` and `email`, over records written by the model. */
  ghost predicate UniqueKeys(docs: seq<UserData>) {
    && (forall i :: 0 <= i < |docs| ==> IsStoredRecord(docs[i]))
    && (forall i, j :: 0 <= i < j < |docs| ==> docs[i].id != docs[j].id)
    && (forall i, j :: 0 <= i < j < |docs| ==> EmailKey(docs[i].attrs) != EmailKey(docs[j].attrs))
  }

  const DUPLICATE_KEY_CODE := 11000

  /** The driver's duplicate-key error, naming the index that collided. */
  function DuplicateKeyError(path: string): (t: Thrown)
    ensures t.Foreign? && t.code == Some(DUPLICATE_KEY_CODE) && t.keyPattern == Some([path])
  {
    Foreign("MongoError", "E11000 duplicate key error", Some(DUPLICATE_KEY_CODE), Some([path]), None, None)
  }

  /** Mongoose's CastError for an `_id` that is not an ObjectId. */
  function CastError(id: string): Thrown {
    Foreign("CastError", "Cast to ObjectId failed for value \"" + id + "\" at path \"_id\" for model \"users\"",
            None, None, None, None)
  }

  /** How saving a new document ends: rejected (with the document's properties at that point) or inserted. */
  datatype SaveOutcome = Rejected(error: Thrown, attrs: map<string, Value>) | Inserted(saved: UserData)

  /** `save()` of a new document: validate, run the pre-save hook, then insert under the unique indexes. */
  function SaveNewSpec(docs: seq<UserData>, fault: Option<StoreError>, d: UserData,
                       modified: set<string>, hash: string -> string): (o: SaveOutcome)
    ensures !PassesValidation(d.attrs) ==> o == Rejected(MONGOOSE_VALIDATION_ERROR, d.attrs)
    ensures o.Inserted? ==>
      && PassesValidation(d.attrs) && fault.None?
      && o.saved.id == d.id && HookedAttrs(d.attrs, modified, hash) == Ok(o.saved.attrs)
      && FirstWithId(docs, d.id).None? && FirstWithEmail(docs, EmailKey(d.attrs)).None?
    ensures PassesValidation(d.attrs) && HookedAttrs(d.attrs, modified, hash).Ok? && fault.None? ==>
      && (FirstWithId(docs, d.id).Some? ==> o.Rejected? && o.error == DuplicateKeyError("_id"))
      && (FirstWithId(docs, d.id).None? && FirstWithEmail(docs, EmailKey(d.attrs)).Some? ==>
            o.Rejected? && o.error == DuplicateKeyError("email"))
    ensures PassesValidation(d.attrs) && HookedAttrs(d.attrs, modified, hash).Err? ==>
      o == Rejected(BCRYPT_ILLEGAL_ARGUMENTS, d.attrs)
    ensures PassesValidation(d.attrs) && HookedAttrs(d.attrs, modified, hash).Ok? && fault.Some? ==>
      o == Rejected(FromStore(fault.value), HookedAttrs(d.attrs, modified, hash).value)
    ensures PassesValidation(d.attrs) && HookedAttrs(d.attrs, modified, hash).Ok? && fault.None?
            && FirstWithId(docs, d.id).None? && FirstWithEmail(docs, EmailKey(d.attrs)).None? ==>
      o == Inserted(UserData(d.id, HookedAttrs(d.attrs, modified, hash).value))
  {
    if !PassesValidation(d.attrs) then Rejected(MONGOOSE_VALIDATION_ERROR, d.attrs)
    else match HookedAttrs(d.attrs, modified, hash)
      case Err(e) => Rejected(e, d.attrs)
      case Ok(a) =>
        if fault.Some? then Rejected(FromStore(fault.value), a)
        else if FirstWithId(docs, d.id).Some? then Rejected(DuplicateKeyError("_id"), a)
        else if FirstWithEmail(docs, EmailKey(a)).Some? then Rejected(DuplicateKeyError("email"), a)
        else Inserted(UserData(d.id, a))
  }

  /** Inserting what SaveNewSpec accepts keeps the unique indexes. */
  lemma {:induction false} InsertKeepsUnique(docs: seq<UserData>, fault: Option<StoreError>, d: UserData,
                                             modified: set<string>, hash: string -> string)
    requires UniqueKeys(docs) && IsStoredRecord(d)
    requires SaveNewSpec(docs, fault, d, modified, hash).Inserted?
    ensures UniqueKeys(docs + [SaveNewSpec(docs, fault, d, modified, hash).saved])
  {
    var s := SaveNewSpec(docs, fault, d, modified, hash).saved;
    assert EmailKey(s.attrs) == EmailKey(d.attrs) && s.attrs.Keys == d.attrs.Keys by {
      HookChangesOnlyPassword(d.attrs, modified, hash, "email");
    }
    var all := docs + [s];
    forall i, j | 0 <= i < j < |all|
      ensures all[i].id != all[j].id && EmailKey(all[i].attrs) != EmailKey(all[j].attrs)
    {
      if j == |docs| {
        assert all[i] == docs[i] && all[j] == s;
      } else {
        assert all[i] == docs[i] && all[j] == docs[j];
      }
    }
  }

  /** Stored ids in their generated form name pairwise different ObjectIds, as the `_id` index demands. */
  lemma UniqueKeysMeansUniqueObjectIds(docs: seq<UserData>, i: int, j: int)
    requires UniqueKeys(docs) && 0 <= i < j < |docs|
    ensures !SameObjectId(docs[i].id, docs[j].id)
  {
    LowerHexIdsAreDistinct(docs[i].id, docs[j].id);
  }

  /** For ids in their generated form, matching the string is matching the ObjectId. */
  lemma {:induction false} FirstWithIdIsObjectIdMatch(docs: seq<UserData>, id: string)
    requires forall i :: 0 <= i < |docs| ==> IsDocId(docs[i].id)
    requires IsDocId(id)
    ensures FirstWithId(docs, id) == FirstWithObjectId(docs, id)
  {
    if docs != [] {
      LowerHexIdsAreDistinct(docs[0].id, id);
      FirstWithIdIsObjectIdMatch(docs[1..], id);
    }
  }

  /** The outcome of a query by key. */
  datatype Lookup = Found(doc: UserDoc) | Missing | Threw(error: Thrown)

  /** The `users` collection: records in natural order, and the fault a query currently meets, if any. */
  class UserCollection {
    var docs: seq<UserData>
    var fault: Option<StoreError>
    /** Round trips made to the store so far. */
    ghost var queries: nat

    ghost predicate Valid()
      reads this
    {
      UniqueKeys(docs)
    }

    constructor (initial: seq<UserData>)
      requires UniqueKeys(initial)
      ensures Valid() && docs == initial && fault.None? && queries == 0
    {
      docs := initial;
      fault := None;
      queries := 0;
    }

    /** `findById(id)`: the id is cast to an ObjectId first, then the store is asked. */
    method FindById(id: string) returns (r: Lookup)
      modifies this`queries
      ensures queries == old(queries) + (if IsValidObjectId(id) then 1 else 0)
      ensures !IsValidObjectId(id) ==> r == Threw(CastError(id))
      ensures IsValidObjectId(id) && fault.Some? ==> r == Threw(FromStore(fault.value))
      ensures IsValidObjectId(id) && fault.None? ==>
        && (r.Missing? <==> FirstWithObjectId(docs, id).None?)
        && (r.Found? ==> fresh(r.doc) && r.doc.Data() == docs[FirstWithObjectId(docs, id).value]
                         && r.doc.modified == {} && !r.doc.isNew)
        && (r.Found? && Valid() ==> IsStoredRecord(r.doc.Data()))
        && !r.Threw?
    {
      if !IsValidObjectId(id) {
        return Threw(CastError(id));
      }
      queries := queries + 1;
      if fault.Some? {
        return Threw(FromStore(fault.value));
      }
      var at := FirstWithObjectId(docs, id);
      if at.None? {
        return Missing;
      }
      var doc := new UserDoc.Hydrate(docs[at.value]);
      r := Found(doc);
    }

    /** `findOne({ email })`: the query value goes through the path's setter (lowercase and trim). */
    method FindOneByEmail(email: string) returns (r: Lookup)
      modifies this`queries
      ensures queries == old(queries) + 1
      ensures fault.Some? ==> r == Threw(FromStore(fault.value))
      ensures fault.None? ==>
        var key := Some(ApplySetter("email", Str(email)));
        && (r.Missing? <==> FirstWithEmail(docs, key).None?)
        && (r.Found? ==> fresh(r.doc) && r.doc.Data() == docs[FirstWithEmail(docs, key).value]
                         && r.doc.modified == {} && !r.doc.isNew)
        && (r.Found? && Valid() ==> IsStoredRecord(r.doc.Data()))
        && !r.Threw?
    {
      queries := queries + 1;
      if fault.Some? {
        return Threw(FromStore(fault.value));
      }
      var at := FirstWithEmail(docs, Some(ApplySetter("email", Str(email))));
      if at.None? {
        return Missing;
      }
      var doc := new UserDoc.Hydrate(docs[at.value]);
      r := Found(doc);
    }

    /** `save()` of a new document; it resolves to the same document. */
    method SaveNew(doc: UserDoc, hash: string -> string) returns (r: Result<UserDoc, Thrown>)
      requires Valid() && doc.isNew && IsStoredRecord(doc.Data())
      modifies this`docs, doc`attrs, doc`modified, doc`isNew
      ensures Valid()
      ensures var o := SaveNewSpec(old(docs), fault, old(doc.Data()), old(doc.modified), hash);
        match o
        case Rejected(e, a) =>
          r == Err(e) && docs == old(docs) && doc.attrs == a && doc.isNew && doc.modified == old(doc.modified)
        case Inserted(saved) =>
          r == Ok(doc) && docs == old(docs) + [saved] && doc.Data() == saved && !doc.isNew && doc.modified == {}
    {
      if !PassesValidation(doc.attrs) {
        return Err(MONGOOSE_VALIDATION_ERROR);
      }
      var failure := doc.HashPasswordHook(hash);
      if failure.Some? {
        return Err(failure.value);
      }
      if fault.Some? {
        return Err(FromStore(fault.value));
      }
      assert EmailKey(doc.attrs) == EmailKey(old(doc.attrs)) by {
        HookChangesOnlyPassword(old(doc.attrs), doc.modified, hash, "email");
      }
      if FirstWithId(docs, doc.id).Some? {
        return Err(DuplicateKeyError("_id"));
      }
      if FirstWithEmail(docs, EmailKey(doc.attrs)).Some? {
        return Err(DuplicateKeyError("email"));
      }
      InsertKeepsUnique(docs, fault, old(doc.Data()), doc.modified, hash);
      docs := docs + [doc.Data()];
      doc.isNew := false;
      doc.modified := {};
      r := Ok(doc);
    }

    /** `doc.remove()`: deletes the record with the document's id. */
    method Remove(doc: UserDoc) returns (r: Result<UserDoc, Thrown>)
      requires Valid()
      modifies this`docs
      ensures Valid()
      ensures fault.Some? ==> r == Err(FromStore(fault.value)) && docs == old(docs)
      ensures fault.None? ==> r == Ok(doc) && docs == WithoutId(old(docs), doc.id)
    {
      if fault.Some? {
        return Err(FromStore(fault.value));
      }
      WithoutIdKeepsUnique(docs, doc.id);
      docs := WithoutId(docs, doc.id);
      r := Ok(doc);
    }
  }

  /** The records left once the (unique) record with `id` is deleted. */
  function WithoutId(docs: seq<UserData>, id: string): (rest: seq<UserData>)
    requires UniqueKeys(docs)
    ensures forall j :: 0 <= j < |rest| ==> rest[j].id != id
  {
    match FirstWithId(docs, id)
    case None => docs
    case Some(i) => RemoveAt(docs, i)
  }

  function RemoveAt(docs: seq<UserData>, i: nat): (rest: seq<UserData>)
    requires i < |docs|
    ensures |rest| == |docs| - 1
    ensures forall j :: 0 <= j < |rest| ==> rest[j] == docs[if j < i then j else j + 1]
  {
    docs[..i] + docs[i + 1..]
  }

  /** Deleting keeps the unique indexes, removes exactly the records with that id, and keeps all others. */
  lemma WithoutIdKeepsUnique(docs: seq<UserData>, id: string)
    requires UniqueKeys(docs)
    ensures UniqueKeys(WithoutId(docs, id))
    ensures forall u :: u in WithoutId(docs, id) <==> u in docs && u.id != id
  {
    var rest := WithoutId(docs, id);
    match FirstWithId(docs, id)
    case None =>
    case Some(i) =>
      forall a | 0 <= a < |rest|
        ensures IsStoredRecord(rest[a])
      {
        assert rest[a] == docs[if a < i then a else a + 1];
      }
      forall a, b | 0 <= a < b < |rest|
        ensures rest[a].id != rest[b].id && EmailKey(rest[a].attrs) != EmailKey(rest[b].attrs)
      {
        assert rest[a] == docs[if a < i then a else a + 1];
        assert rest[b] == docs[if b < i then b else b + 1];
      }
      forall u ensures u in rest <==> u in docs && u.id != id {
        if u in docs && u.id != id {
          var j :| 0 <= j < |docs| && docs[j] == u;
          assert rest[if j < i then j else j - 1] == u;
        }
      }
  }

  // ---------------------------------------------------------------- statics

  const INVALID_ID_ENTRY: FieldError := FieldError(Some("id"), "body or params", "Please enter valid User ID")

  function InvalidIdError(): (e: ErrorValue)
    ensures e.status == BAD_REQUEST && e.message == VALIDATION_ERROR && e.errors == [INVALID_ID_ENTRY]
  {
    Build(ErrorArgs(VALIDATION_ERROR, None, Some([INVALID_ID_ENTRY]), Some(BAD_REQUEST), None))
  }

  function NoRecordError(): (e: ErrorValue)
    ensures e.status == NOT_FOUND && e.message == NO_RECORD_FOUND && e.errors == []
  {
    Build(MessageAndStatus(NO_RECORD_FOUND, NOT_FOUND))
  }

  function InvalidCredentialsError(): (e: ErrorValue)
    ensures e.status == BAD_REQUEST && e.message == INVALID_CREDENTIALS && e.errors == []
  {
    Build(MessageAndStatus(INVALID_CREDENTIALS, BAD_REQUEST))
  }

  /** `Types.ObjectId.isValid` on what `get` receives; `undefined` is not valid. */
  predicate ValidId(id: Option<string>) {
    id.Some? && IsValidObjectId(id.value)
  }

  /** What `User.get(id)` settles to, over the records and the store's fault. */
  function GetSpec(docs: seq<UserData>, fault: Option<StoreError>, id: Option<string>): (r: Result<UserData, Thrown>)
    ensures !ValidId(id) ==> r == Err(Api(InvalidIdError()))
    ensures ValidId(id) && fault.Some? ==> r == Err(FromStore(fault.value))
    ensures ValidId(id) && fault.None? && FirstWithObjectId(docs, id.value).None? ==> r == Err(Api(NoRecordError()))
    ensures r.Ok? <==> ValidId(id) && fault.None? && FirstWithObjectId(docs, id.value).Some?
    ensures r.Ok? ==> r.value in docs && SameObjectId(r.value.id, id.value)
    ensures r.Err? ==> !r.error.RequestInvalid?
  {
    if !ValidId(id) then Err(Api(InvalidIdError()))
    else if fault.Some? then Err(FromStore(fault.value))
    else match FirstWithObjectId(docs, id.value)
      case None => Err(Api(NoRecordError()))
      case Some(i) => Ok(docs[i])
  }

  /** Only the ObjectId an id is cast to matters to the lookup, not how the id is spelled. */
  lemma {:induction false} FirstWithObjectIdRespectsCast(docs: seq<UserData>, a: string, b: string)
    requires IdKey(a) == IdKey(b)
    ensures FirstWithObjectId(docs, a) == FirstWithObjectId(docs, b)
  {
    if docs != [] {
      FirstWithObjectIdRespectsCast(docs[1..], a, b);
    }
  }

  /** Two spellings of one ObjectId (say, in upper and lower case) get the same answer. */
  lemma GetIgnoresIdSpelling(docs: seq<UserData>, fault: Option<StoreError>, a: string, b: string)
    requires SameObjectId(a, b)
    ensures GetSpec(docs, fault, Some(a)) == GetSpec(docs, fault, Some(b))
  {
    FirstWithObjectIdRespectsCast(docs, a, b);
  }

  /** `User.get(id)`: bad id (no round trip), absent record, or the record as a fresh document. */
  method Get(users: UserCollection, id: Option<string>) returns (r: Result<UserDoc, Thrown>)
    modifies users`queries
    ensures users.queries == old(users.queries) + (if ValidId(id) then 1 else 0)
    ensures var spec := GetSpec(users.docs, users.fault, id);
      && (r.Ok? <==> spec.Ok?)
      && (r.Ok? ==> fresh(r.value) && r.value.Data() == spec.value && !r.value.isNew && r.value.modified == {})
      && (r.Err? ==> r.error == spec.error)
  {
    if !ValidId(id) {
      return Err(Api(InvalidIdError()));
    }
    var found := users.FindById(id.value);
    match found
    case Threw(e) => r := Err(e);
    case Missing => r := Err(Api(NoRecordError()));
    case Found(doc) => r := Ok(doc);
  }

  /** What a successful login check yields. */
  datatype Credentials = Credentials(user: map<string, Value>, accessToken: string)

  /**
   * What `ValidateUserAndGenerateToken({email, password})` settles to: an
   * unknown email is 404, a wrong password 400, otherwise the public view
   * and an access token for that user.
   */
  function LoginCheck(docs: seq<UserData>, fault: Option<StoreError>, email: string, password: string,
                      compare: (string, string) -> bool, now: int, minutes: nat, sign: Claims -> string)
    : (r: Result<Credentials, Thrown>)
    ensures fault.Some? ==> r == Err(FromStore(fault.value))
    ensures fault.None? && FirstWithEmail(docs, Some(ApplySetter("email", Str(email)))).None? ==>
              r == Err(Api(NoRecordError()))
    ensures r.Ok? ==>
      exists i :: (0 <= i < |docs| && IsLoginMatch(docs, email, i)
        && "password" in docs[i].attrs && docs[i].attrs["password"].Str?
        && compare(password, docs[i].attrs["password"].s)
        && r.value == Credentials(PublicView(docs[i]), sign(AccessClaims(docs[i].id, now, minutes))))
    ensures fault.None? && (exists i :: (0 <= i < |docs| && IsLoginMatch(docs, email, i)
              && "password" in docs[i].attrs && docs[i].attrs["password"].Str?
              && !compare(password, docs[i].attrs["password"].s))) ==>
              r == Err(Api(InvalidCredentialsError()))
    ensures forall i :: (fault.None? && 0 <= i < |docs| && IsLoginMatch(docs, email, i)
                         && "password" in docs[i].attrs && docs[i].attrs["password"].Str?
                         && compare(password, docs[i].attrs["password"].s)) ==>
              r == Ok(Credentials(PublicView(docs[i]), sign(AccessClaims(docs[i].id, now, minutes))))
    ensures forall i :: (fault.None? && 0 <= i < |docs| && IsLoginMatch(docs, email, i)
                         && !("password" in docs[i].attrs && docs[i].attrs["password"].Str?)) ==>
              r == Err(BCRYPT_ILLEGAL_ARGUMENTS)
  {
    if fault.Some? then Err(FromStore(fault.value))
    else match FirstWithEmail(docs, Some(ApplySetter("email", Str(email))))
      case None => Err(Api(NoRecordError()))
      case Some(i) =>
        var d := docs[i];
        assert IsLoginMatch(docs, email, i);
        if !("password" in d.attrs && d.attrs["password"].Str?) then Err(BCRYPT_ILLEGAL_ARGUMENTS)
        else if !compare(password, d.attrs["password"].s) then Err(Api(InvalidCredentialsError()))
        else Ok(Credentials(PublicView(d), sign(AccessClaims(d.id, now, minutes))))
  }

  /** Record `i` is the one `findOne({ email })` returns. */
  predicate IsLoginMatch(docs: seq<UserData>, email: string, i: int)
    requires 0 <= i < |docs|
  {
    FirstWithEmail(docs, Some(ApplySetter("email", Str(email)))) == Some(i)
  }

  /** `ValidateUserAndGenerateToken`: one query by email, then the password check and the token. */
  method ValidateUserAndGenerateToken(users: UserCollection, email: string, password: string,
                                      compare: (string, string) -> bool,
                                      now: int, minutes: nat, sign: Claims -> string)
    returns (r: Result<Credentials, Thrown>)
    modifies users`queries
    ensures users.queries == old(users.queries) + 1
    ensures r == LoginCheck(users.docs, users.fault, email, password, compare, now, minutes, sign)
  {
    var found := users.FindOneByEmail(email);
    match found
    case Threw(e) => r := Err(e);
    case Missing => r := Err(Api(NoRecordError()));
    case Found(user) =>
      if !("password" in user.attrs && user.attrs["password"].Str?) {
        return Err(BCRYPT_ILLEGAL_ARGUMENTS);
      }
      if !compare(password, user.attrs["password"].s) {
        return Err(Api(InvalidCredentialsError()));
      }
      var view := user.Transform();
      r := Ok(Credentials(view, user.Token(now, minutes, sign)));
  }

  /** A driver error for a unique-index violation. */
  predicate IsDuplicateKeyError(e: Thrown) {
    e.Foreign? && e.code == Some(DUPLICATE_KEY_CODE) && (e.name == "BulkWriteError" || e.name == "MongoError")
  }

  const NAME_EXIST: string := "Name already exist"

  /** `Object.keys(undefined)` throws. */
  const KEYS_OF_UNDEFINED: Thrown :=
    Foreign("TypeError", "Cannot convert undefined or null to object", None, None, None, None)

  /**
   * `checkDuplication(error)`, as the error its callers end up throwing:
   * a duplicate on `name` wins over one on `email`, both become 404
   * APIErrors; every other error is returned unchanged, and a duplicate-key
   * error without `keyPattern` makes `Object.keys` throw.
   */
  function CheckDuplication(e: Thrown): (r: Thrown)
    ensures !IsDuplicateKeyError(e) ==> r == e
    ensures IsDuplicateKeyError(e) && e.keyPattern.None? ==> r == KEYS_OF_UNDEFINED
    ensures IsDuplicateKeyError(e) && e.keyPattern.Some? ==>
      var keys := e.keyPattern.value;
      && ("name" in keys ==> r == Api(Build(MessageAndStatus(NAME_EXIST, NOT_FOUND))))
      && ("name" !in keys && "email" in keys ==> r == Api(Build(MessageAndStatus(EMAIL_EXIST, NOT_FOUND))))
      && ("name" !in keys && "email" !in keys ==> r == e)
  {
    if IsDuplicateKeyError(e) then
      if e.keyPattern.None? then KEYS_OF_UNDEFINED
      else if "name" in e.keyPattern.value then Api(Build(MessageAndStatus(NAME_EXIST, NOT_FOUND)))
      else if "email" in e.keyPattern.value then Api(Build(MessageAndStatus(EMAIL_EXIST, NOT_FOUND)))
      else e
    else e
  }

  /** Translating twice is translating once. */
  lemma CheckDuplicationIdempotent(e: Thrown)
    ensures CheckDuplication(CheckDuplication(e)) == CheckDuplication(e)
  {
  }

  /** What `save()` of a new user throws, after `checkDuplication`: only the email index yields EMAIL_EXIST. */
  lemma SaveErrorTranslation(docs: seq<UserData>, fault: Option<StoreError>, d: UserData,
                             modified: set<string>, hash: string -> string)
    requires SaveNewSpec(docs, fault, d, modified, hash).Rejected?
    ensures var e := SaveNewSpec(docs, fault, d, modified, hash).error;
      && (e == DuplicateKeyError("email") ==> CheckDuplication(e) == Api(Build(MessageAndStatus(EMAIL_EXIST, NOT_FOUND))))
      && (e == DuplicateKeyError("_id") ==> CheckDuplication(e) == e)
      && (!IsDuplicateKeyError(e) ==> CheckDuplication(e) == e)
  {
  }
}
