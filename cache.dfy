/**
 * The read-through cache helpers of src/utils/cache.js over a Redis-like
 * key-value store with per-key expiry (SETEX / GET). The stored value is the
 * serialised data; serialisation is taken to round-trip exactly.
 */
module Cache {
  import opened Wrappers
  import opened ApiErrors

  /** `API-<path>-<param>-<query>`. */
  function GenerateKey(path: string, param: string, query: string): (key: string)
    ensures key == "API-" + path + "-" + param + "-" + query
    ensures |key| == 6 + |path| + |param| + |query|
  {
    "API-" + path + "-" + param + "-" + query
  }

  /** The rendering of an optional argument: an omitted one defaults to the number 0. */
  function ArgText(arg: Option<string>): (t: string)
    ensures arg.None? ==> t == "0"
    ensures arg.Some? ==> t == arg.value
  {
    arg.GetOr("0")
  }

  /** Keys with the same param and query are distinct for distinct paths. */
  lemma KeyDeterminesPath(p1: string, p2: string, param: string, query: string)
    requires GenerateKey(p1, param, query) == GenerateKey(p2, param, query)
    ensures p1 == p2
  {
    var k := GenerateKey(p1, param, query);
    assert |p1| == |p2|;
    assert p1 == k[4..4 + |p1|];
    assert p2 == GenerateKey(p2, param, query)[4..4 + |p2|];
  }

  /** The key does not keep its parts apart: a dash in a path can stand for the separator. */
  lemma KeysCanCollide()
    ensures GenerateKey("/a-b", "c", "0") == GenerateKey("/a", "b-c", "0")
  {
  }

  /** Seconds a cached entry stays readable. */
  const TTL := 3600

  datatype Entry<V> = Entry(value: V, expiresAt: int)

  /** A live entry is one whose expiry lies after `now`. */
  function ReadEntry<V>(entries: map<string, Entry<V>>, key: string, now: int): (v: Option<V>)
    ensures v.Some? <==> key in entries && now < entries[key].expiresAt
    ensures v.Some? ==> v.value == entries[key].value
  {
    if key in entries && now < entries[key].expiresAt then Some(entries[key].value) else None
  }

  /** Written at `t` with a TTL of 3600 s: readable during [t, t + 3600), gone afterwards; other keys are untouched. */
  lemma ReadAfterWrite<V>(entries: map<string, Entry<V>>, key: string, other: string, v: V, t: int, now: int)
    requires other != key
    ensures var after := entries[key := Entry(v, t + TTL)];
      && (t <= now < t + TTL ==> ReadEntry(after, key, now) == Some(v))
      && (now >= t + TTL ==> ReadEntry(after, key, now) == None)
      && ReadEntry(after, other, now) == ReadEntry(entries, other, now)
  {
  }

  /** What the store answers to SETEX (a reply string) or the error it raises. */
  datatype Ack = Reply(text: string) | Fail(error: StoreError)

  /** The store: entries keyed by string, each with its expiry time. */
  class TtlStore<V> {
    var entries: map<string, Entry<V>>

    constructor ()
      ensures entries == map[]
    {
      entries := map[];
    }

    function Read(key: string, now: int): Option<V>
      reads this
    {
      ReadEntry(entries, key, now)
    }

    /** SETEX: the entry is written when the store acknowledges with "OK". */
    method SetEx(key: string, ttl: int, value: V, now: int, ack: Ack) returns (r: Result<string, StoreError>)
      modifies this
      ensures ack.Reply? ==> r == Ok(ack.text)
      ensures ack.Fail? ==> r == Err(ack.error)
      ensures entries == if ack == Reply("OK") then old(entries)[key := Entry(value, now + ttl)] else old(entries)
    {
      match ack
      case Fail(e) =>
        r := Err(e);
      case Reply(text) =>
        if text == "OK" {
          entries := entries[key := Entry(value, now + ttl)];
        }
        r := Ok(text);
    }

    /** GET (answering `null`, here `None`, for an absent or expired key), or the error the store raises. */
    method Get(key: string, now: int, fault: Option<StoreError>) returns (r: Result<Option<V>, StoreError>)
      ensures fault.Some? ==> r == Err(fault.value)
      ensures fault.None? ==> r == Ok(Read(key, now))
    {
      if fault.Some? {
        return Err(fault.value);
      }
      r := Ok(Read(key, now));
    }
  }

  /** `CreateCache(data, path, param, query)`: true iff the store replied "OK"; a store error is thrown. */
  method CreateCache<V>(store: TtlStore<V>, data: V, path: string, param: Option<string>, query: Option<string>,
                        now: int, ack: Ack) returns (r: Result<bool, Thrown>)
    modifies store
    ensures var key := GenerateKey(path, ArgText(param), ArgText(query));
      store.entries == if ack == Reply("OK") then old(store.entries)[key := Entry(data, now + TTL)] else old(store.entries)
    ensures ack.Reply? ==> r == Ok(ack.text == "OK")
    ensures ack.Fail? ==> r == Err(FromStore(ack.error))
  {
    var key := GenerateKey(path, ArgText(param), ArgText(query));
    var reply := store.SetEx(key, TTL, data, now, ack);
    match reply
    case Err(e) => r := Err(FromStore(e));
    case Ok(text) => r := Ok(text == "OK");
  }

  /** `GetCache(path, param, query)`: the live value under the key, `None` when absent or expired. */
  method GetCache<V>(store: TtlStore<V>, path: string, param: Option<string>, query: Option<string>,
                     now: int, fault: Option<StoreError>) returns (r: Result<Option<V>, Thrown>)
    ensures fault.Some? ==> r == Err(FromStore(fault.value))
    ensures fault.None? ==> r == Ok(ReadEntry(store.entries, GenerateKey(path, ArgText(param), ArgText(query)), now))
  {
    var key := GenerateKey(path, ArgText(param), ArgText(query));
    var got := store.Get(key, now, fault);
    match got
    case Err(e) => r := Err(FromStore(e));
    case Ok(v) => r := Ok(v);
  }
}
