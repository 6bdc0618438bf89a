/**
 * The auth service of src/api/service/auth.js: the token response that
 * login returns, registration, and login.
 */
module AuthService {
  import opened Wrappers
  import opened ApiErrors
  import opened UserModel
  import opened RefreshTokens

  const TOKEN_TYPE: string := "Bearer"

  /** `{ tokenType, accessToken, refreshToken, expiresIn }`; `expiresIn` in seconds since the epoch. */
  datatype TokenResponse = TokenResponse(tokenType: string, accessToken: string, refreshToken: string, expiresIn: int)

  /** `generateTokenResponse(user, accessToken)`: also starts the write of a refresh token for `user`. */
  method GenerateTokenResponse(tokens: RefreshTokenStore, user: map<string, Value>, accessToken: string,
                               bytes: seq<byte>, now: int, minutes: nat, storeFails: bool)
    returns (t: TokenResponse)
    requires |bytes| == RANDOM_BYTE_COUNT
    modifies tokens
    ensures t.tokenType == TOKEN_TYPE && t.accessToken == accessToken
    ensures t.refreshToken == NewRecord(user, bytes, now).token
    ensures t.expiresIn - now == 60 * minutes
    ensures var rec := NewRecord(user, bytes, now);
      tokens.records == old(tokens.records) + (if Storable(rec) && !storeFails then [rec] else [])
  {
    var refreshToken := tokens.Generate(user, bytes, now, storeFails);
    var expiresIn := now + 60 * minutes;
    t := TokenResponse(TOKEN_TYPE, accessToken, refreshToken, expiresIn);
  }

  datatype Registration = Registration(token: string, user: map<string, Value>)

  /**
   * `Register(userData)`: the access token of the new document and the
   * public view of the saved user; a failed save is thrown through
   * `checkDuplication`. No refresh token is issued here.
   */
  method Register(users: UserCollection, body: map<string, Value>, freshId: string, hash: string -> string,
                  now: int, minutes: nat, sign: Claims -> string)
    returns (r: Result<Registration, Thrown>)
    requires users.Valid() && IsDocId(freshId)
    modifies users`docs
    ensures users.Valid()
    ensures match SaveNewSpec(old(users.docs), users.fault, Instantiate(freshId, body), body.Keys * SCHEMA_PATHS, hash)
      case Rejected(e, _) => r == Err(CheckDuplication(e)) && users.docs == old(users.docs)
      case Inserted(saved) =>
        && r == Ok(Registration(sign(AccessClaims(freshId, now, minutes)), PublicView(saved)))
        && users.docs == old(users.docs) + [saved]
  {
    var us := new UserDoc(freshId, body);
    var saved := users.SaveNew(us, hash);
    match saved
    case Err(e) =>
      r := Err(CheckDuplication(e));
    case Ok(savedUser) =>
      var view := savedUser.Transform();
      r := Ok(Registration(us.Token(now, minutes, sign), view));
  }

  datatype LoginResult = LoginResult(tokens: TokenResponse, user: map<string, Value>)

  /**
   * `Login(userData)`: a failed check propagates and writes no refresh
   * token; otherwise the token response for the checked user.
   */
  method Login(users: UserCollection, tokens: RefreshTokenStore, email: string, password: string,
               compare: (string, string) -> bool, now: int, minutes: nat, sign: Claims -> string,
               bytes: seq<byte>, storeFails: bool)
    returns (r: Result<LoginResult, Thrown>)
    requires |bytes| == RANDOM_BYTE_COUNT
    modifies users`queries, tokens
    ensures var c := LoginCheck(users.docs, users.fault, email, password, compare, now, minutes, sign);
      c.Err? ==> r == Err(c.error) && tokens.records == old(tokens.records)
    ensures var c := LoginCheck(users.docs, users.fault, email, password, compare, now, minutes, sign);
      c.Ok? ==> (r == Ok(LoginResult(LoginTokens(c.value, bytes, now, minutes), c.value.user))
             && tokens.records == old(tokens.records) + StoredFor(c.value.user, bytes, now, storeFails))
  {
    ghost var c := LoginCheck(users.docs, users.fault, email, password, compare, now, minutes, sign);
    var checked := ValidateUserAndGenerateToken(users, email, password, compare, now, minutes, sign);
    if checked.Err? {
      return Err(checked.error);
    }
    var cred := checked.value;
    assert c == Ok(cred);
    var t := GenerateTokenResponse(tokens, cred.user, cred.accessToken, bytes, now, minutes, storeFails);
    assert t == LoginTokens(cred, bytes, now, minutes);
    assert tokens.records == old(tokens.records) + StoredFor(cred.user, bytes, now, storeFails);
    r := Ok(LoginResult(t, cred.user));
  }

  /** The token response a successful check yields. */
  function LoginTokens(cred: Credentials, bytes: seq<byte>, now: int, minutes: nat): TokenResponse {
    TokenResponse(TOKEN_TYPE, cred.accessToken, NewRecord(cred.user, bytes, now).token, now + 60 * minutes)
  }

  /** The refresh-token records that `generate(user)` adds. */
  function StoredFor(user: map<string, Value>, bytes: seq<byte>, now: int, storeFails: bool): seq<RefreshRecord> {
    var rec := NewRecord(user, bytes, now);
    if Storable(rec) && !storeFails then [rec] else []
  }

  /**
   * After a successful login the refresh token starts with the user's id, and
   * `expiresIn` is the `exp` claim of the access token issued with it.
   */
  lemma LoginTokensNameTheUser(docs: seq<UserData>, email: string, password: string,
                               compare: (string, string) -> bool, now: int, minutes: nat,
                               sign: Claims -> string, bytes: seq<byte>)
    requires |bytes| == RANDOM_BYTE_COUNT
    requires LoginCheck(docs, None, email, password, compare, now, minutes, sign).Ok?
    ensures var cred := LoginCheck(docs, None, email, password, compare, now, minutes, sign).value;
      exists i :: 0 <= i < |docs| && IsLoginMatch(docs, email, i)
        && cred.accessToken == sign(AccessClaims(docs[i].id, now, minutes))
        && AccessClaims(docs[i].id, now, minutes).exp == now + 60 * minutes
        && NewRecord(cred.user, bytes, now).token == TokenString(docs[i].id, bytes)
        && ('.' !in docs[i].id ==> BeforeFirstDot(NewRecord(cred.user, bytes, now).token) == docs[i].id)
  {
    var c := LoginCheck(docs, None, email, password, compare, now, minutes, sign);
    var i :| 0 <= i < |docs| && IsLoginMatch(docs, email, i)
      && "password" in docs[i].attrs && docs[i].attrs["password"].Str?
      && compare(password, docs[i].attrs["password"].s)
      && c.value == Credentials(PublicView(docs[i]), sign(AccessClaims(docs[i].id, now, minutes)));
    RefreshTokenNamesDoc(docs[i], bytes, now);
  }

  /** The refresh token minted for a user's public view starts with that user's id. */
  lemma RefreshTokenNamesDoc(d: UserData, bytes: seq<byte>, now: int)
    ensures NewRecord(PublicView(d), bytes, now).token == TokenString(d.id, bytes)
    ensures '.' !in d.id ==> BeforeFirstDot(NewRecord(PublicView(d), bytes, now).token) == d.id
  {
    assert JsString(Prop(PublicView(d), "id")) == d.id;
    var t := TokenString(d.id, bytes);
    if '.' !in d.id {
      BeforeDotOfPrefix(d.id, t);
    }
  }
}
