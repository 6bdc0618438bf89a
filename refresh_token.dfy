/**
 * The refresh-token model of src/api/models/refresh-token.js: the token
 * string `<id>.<hex of 40 random bytes>`, its 30-day expiry and the record
 * that `generate` persists without waiting for the write.
 */
module RefreshTokens {
  import opened Wrappers
  import opened UserModel

  newtype byte = x: int | 0 <= x < 256

  const RANDOM_BYTE_COUNT := 40
  /** `moment().add(30, 'days')`, in seconds. */
  const THIRTY_DAYS := 30 * 24 * 60 * 60

  predicate IsHexDigit(c: char) {
    ('0' <= c <= '9') || ('a' <= c <= 'f')
  }

  function DigitValue(c: char): (v: int)
    requires IsHexDigit(c)
    ensures 0 <= v < 16
  {
    if '0' <= c <= '9' then c as int - '0' as int else c as int - 'a' as int + 10
  }

  /** The lowercase hex digit for a value below sixteen. */
  function HexDigit(d: int): (c: char)
    requires 0 <= d < 16
    ensures IsHexDigit(c) && DigitValue(c) == d
  {
    if d < 10 then ('0' as int + d) as char else ('a' as int + d - 10) as char
  }

  function HexByte(b: byte): (h: string)
    ensures |h| == 2 && IsHexDigit(h[0]) && IsHexDigit(h[1])
    ensures DigitValue(h[0]) * 16 + DigitValue(h[1]) == b as int
  {
    [HexDigit(b as int / 16), HexDigit(b as int % 16)]
  }

  /** `Buffer.toString('hex')`: two lowercase hex digits per byte. */
  function Hex(bytes: seq<byte>): (h: string)
    ensures |h| == 2 * |bytes|
    ensures forall i :: 0 <= i < |h| ==> IsHexDigit(h[i])
  {
    if bytes == [] then [] else HexByte(bytes[0]) + Hex(bytes[1..])
  }

  /** Reading a hex string back into bytes. */
  function UnHex(h: string): (bytes: seq<byte>)
    requires |h| % 2 == 0
    requires forall i :: 0 <= i < |h| ==> IsHexDigit(h[i])
    ensures |bytes| == |h| / 2
  {
    if h == [] then [] else [(DigitValue(h[0]) * 16 + DigitValue(h[1])) as byte] + UnHex(h[2..])
  }

  /** The hex rendering loses nothing: the bytes can be read back. */
  lemma {:induction false} HexRoundTrip(bytes: seq<byte>)
    ensures UnHex(Hex(bytes)) == bytes
  {
    if bytes != [] {
      var h := Hex(bytes);
      var p := HexByte(bytes[0]);
      assert h == p + Hex(bytes[1..]);
      assert h[0] == p[0] && h[1] == p[1] && h[2..] == Hex(bytes[1..]);
      HexRoundTrip(bytes[1..]);
      assert UnHex(h) == [bytes[0]] + bytes[1..];
    }
  }

  /** The token: the id's string form, a dot, and the hex of the random bytes. */
  function TokenString(id: string, bytes: seq<byte>): (t: string)
    ensures |t| == |id| + 1 + 2 * |bytes|
    ensures t[..|id|] == id && t[|id|] == '.' && t[|id| + 1..] == Hex(bytes)
  {
    id + "." + Hex(bytes)
  }

  /** The text before the first '.' (all of it when there is none). */
  function BeforeFirstDot(s: string): (p: string)
    ensures |p| <= |s| && p == s[..|p|]
    ensures '.' !in p
    ensures |p| < |s| ==> s[|p|] == '.'
  {
    if s == [] || s[0] == '.' then [] else [s[0]] + BeforeFirstDot(s[1..])
  }

  /** With forty random bytes the suffix is eighty hex digits, and an id without a dot is recovered from the token. */
  lemma {:induction false} TokenShape(id: string, bytes: seq<byte>)
    requires |bytes| == RANDOM_BYTE_COUNT
    ensures var t := TokenString(id, bytes);
      && |t[|id| + 1..]| == 80
      && (forall i :: |id| + 1 <= i < |t| ==> IsHexDigit(t[i]))
      && ('.' !in id ==> BeforeFirstDot(t) == id)
      && UnHex(t[|id| + 1..]) == bytes
  {
    var t := TokenString(id, bytes);
    SuffixIsHex(t, |id| + 1);
    if '.' !in id {
      BeforeDotOfPrefix(id, t);
    }
    HexRoundTrip(bytes);
  }

  lemma SuffixIsHex(t: string, k: nat)
    requires k <= |t| && forall i :: 0 <= i < |t[k..]| ==> IsHexDigit(t[k..][i])
    ensures forall i :: k <= i < |t| ==> IsHexDigit(t[i])
  {
    forall i | k <= i < |t| ensures IsHexDigit(t[i]) {
      assert t[i] == t[k..][i - k];
    }
  }

  lemma {:induction false} BeforeDotOfPrefix(id: string, t: string)
    requires '.' !in id && |t| > |id| && t[..|id|] == id && t[|id|] == '.'
    ensures BeforeFirstDot(t) == id
  {
    if id != [] {
      assert t[0] == id[0];
      BeforeDotOfPrefix(id[1..], t[1..]);
    }
  }

  /** A stored refresh token: `id` and `email` are what the user object held (`None` for `undefined`). */
  datatype RefreshRecord = RefreshRecord(token: string, id: Option<Value>, email: Option<Value>, expires: int)

  /** The schema's requirements: a token, an id castable to an ObjectId, and a non-empty email. */
  predicate Storable(r: RefreshRecord)
    ensures Storable(r) ==> r.token != [] && r.id.Some? && r.id.value.Str? && r.email.Some? && r.email.value != Str("")
    ensures Storable(r) ==> r.id.Some? && r.id.value.Str? && (|r.id.value.s| == 12 || |r.id.value.s| == 24)
  {
    && r.token != ""
    && r.id.Some? && r.id.value.Str? && IsValidObjectId(r.id.value.s)
    && r.email.Some? && r.email.value != Str("")
  }

  /** The record `generate(user)` builds at time `now`. */
  function NewRecord(user: map<string, Value>, bytes: seq<byte>, now: int): (r: RefreshRecord)
    ensures r.token == TokenString(JsString(Prop(user, "id")), bytes)
    ensures r.id == Prop(user, "id") && r.email == Prop(user, "email")
    ensures r.expires - now == THIRTY_DAYS
  {
    RefreshRecord(TokenString(JsString(Prop(user, "id")), bytes), Prop(user, "id"), Prop(user, "email"), now + THIRTY_DAYS)
  }

  /** The `RefreshToken` collection. */
  class RefreshTokenStore {
    var records: seq<RefreshRecord>

    constructor ()
      ensures records == []
    {
      records := [];
    }

    /**
     * `RefreshToken.generate(user)`: the token is returned whether or not the
     * write that `save()` starts succeeds; the record is stored only when it
     * passes the schema and the store accepts it (`storeFails` is the store's
     * outcome, which nobody waits for).
     */
    method Generate(user: map<string, Value>, bytes: seq<byte>, now: int, storeFails: bool) returns (token: string)
      requires |bytes| == RANDOM_BYTE_COUNT
      modifies this
      ensures token == NewRecord(user, bytes, now).token
      ensures var rec := NewRecord(user, bytes, now);
        records == old(records) + (if Storable(rec) && !storeFails then [rec] else [])
    {
      var id := Prop(user, "id");
      var email := Prop(user, "email");
      token := JsString(id) + "." + Hex(bytes);
      var expires := now + THIRTY_DAYS;
      var rec := RefreshRecord(token, id, email, expires);
      if Storable(rec) && !storeFails {
        records := records + [rec];
      }
    }
  }
}
