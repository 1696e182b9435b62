/**
 * The expiring key-value cache over `localStorage`. Each cached value is stored as the
 * JSON text of an envelope `{data, timestamp}`; freshness is judged when it is read.
 * The clock (`Date.now()`) is the `now` parameter.
 */
module OfflineCache {
  import opened Common
  import opened Text
  import opened Json
  import opened LocalStorage

  const NEWS := "agrivision_news"
  const MARKET_PRICES := "agrivision_market"
  const FARMER_DATA := "agrivision_farmer"
  const SOIL_RESULTS := "agrivision_soil_results"
  const CROP_ANALYSIS := "agrivision_crop_analysis"
  const LAST_SYNC := "agrivision_last_sync"

  /** `Object.values(CACHE_KEYS)`, in declaration order. */
  const CACHE_KEYS: seq<string> := [NEWS, MARKET_PRICES, FARMER_DATA, SOIL_RESULTS, CROP_ANALYSIS, LAST_SYNC]

  /** One hour in milliseconds: the `maxAge` used when the caller gives none. */
  const DEFAULT_MAX_AGE: int := 3600000

  /** The document `set` stringifies: `{data, timestamp}`. */
  function Envelope(data: Json, timestamp: int): Json {
    JObj(map["data" := data, "timestamp" := JNum(timestamp)])
  }

  /**
   * `offlineCache.get(key)`: the envelope's `data`; null for a missing or empty entry and for
   * an entry that does not parse (the exception is caught). A parsed document without a
   * `data` member yields undefined.
   */
  function Get(items: map<string, string>, codec: Codec, key: string): (r: Js)
    ensures key !in items || items[key] == "" ==> r == Null
    ensures key in items && codec.parse(items[key]).None? ==> r == Null
    ensures Truthy(r) ==> key in items && exists f :: codec.parse(items[key]) == Some(JObj(f)) && "data" in f && r == Value(f["data"])
  {
    if key !in items || items[key] == "" then Null
    else match codec.parse(items[key])
      case None => Null
      case Some(JNull) => Null
      case Some(doc) => Member(doc, "data")
  }

  /**
   * `offlineCache.isValid(key, maxAge)`: the entry exists, parses, and its age
   * `now - timestamp` is strictly below `maxAge`, the timestamp coerced as `Number` does. A
   * missing, empty or corrupt entry, or a timestamp that coerces to NaN, gives false rather
   * than an exception.
   */
  function IsValid(items: map<string, string>, codec: Codec, key: string, maxAge: int, now: int): (r: bool)
    ensures key !in items || items[key] == "" ==> !r
    ensures key in items && codec.parse(items[key]).None? ==> !r
    ensures r ==> key in items && exists f ::
                    && codec.parse(items[key]) == Some(JObj(f))
                    && "timestamp" in f
                    && ToNumber(Value(f["timestamp"])).Some?
                    && now - ToNumber(Value(f["timestamp"])).value < maxAge
  {
    if key !in items || items[key] == "" then false
    else match codec.parse(items[key])
      case None => false
      case Some(JNull) => false
      case Some(doc) =>
        match ToNumber(Member(doc, "timestamp"))
        case None => false
        case Some(t) => now - t < maxAge
  }

  /**
   * `Date.now() - parsed.timestamp` coerces the timestamp: an entry whose timestamp is the
   * decimal text of `t0` is valid exactly while `now < t0 + maxAge`, as a numeric one is.
   */
  lemma IsValidTextTimestamp(items: map<string, string>, codec: Codec, key: string, f: map<string, Json>,
                             t0: int, maxAge: int, now: int)
    requires key in items && items[key] != "" && codec.parse(items[key]) == Some(JObj(f))
    requires "timestamp" in f && f["timestamp"] == JStr(IntToString(t0))
    ensures IsValid(items, codec, key, maxAge, now) <==> now < t0 + maxAge
  {
    StringToNumberOfDecimal(t0);
  }

  /** `offlineCache.isValid(key)` with the default one-hour maximum age. */
  function IsValidDefault(items: map<string, string>, codec: Codec, key: string, now: int): (r: bool)
    ensures r == IsValid(items, codec, key, 3600000, now)
  {
    IsValid(items, codec, key, DEFAULT_MAX_AGE, now)
  }

  /** What `getLastSync` returns: null, a `Date` at a millisecond time, or an invalid `Date`. */
  datatype LastSync = NoSync | SyncedAt(ms: int) | InvalidDate

  /** `offlineCache.getLastSync()`: `new Date(parseInt(stored))`, or null when nothing is stored. */
  function GetLastSync(items: map<string, string>): (r: LastSync)
    ensures r == NoSync <==> LAST_SYNC !in items || items[LAST_SYNC] == ""
  {
    if LAST_SYNC !in items || items[LAST_SYNC] == "" then NoSync
    else match ParseInt(items[LAST_SYNC])
      case None => InvalidDate
      case Some(ms) => SyncedAt(ms)
  }

  /**
   * `offlineCache.set(key, data)`: stores the envelope stamped with `now` under `key` only;
   * a write the store refuses is caught and reported as false.
   */
  method Set(store: Store, codec: Codec, key: string, data: Json, now: int, accepted: bool) returns (ok: bool)
    modifies store
    ensures ok == accepted
    ensures store.items == if ok then old(store.items)[key := codec.stringify(Envelope(data, now))] else old(store.items)
  {
    ok := store.SetItem(key, codec.stringify(Envelope(data, now)), accepted);
  }

  /**
   * `offlineCache.remove(key)`: deletes `key` and nothing else; a removal the store refuses
   * is caught and reported as false.
   */
  method Remove(store: Store, key: string, accepted: bool) returns (ok: bool)
    modifies store
    ensures ok == accepted
    ensures store.items == if ok then old(store.items) - {key} else old(store.items)
  {
    ok := store.RemoveItem(key, accepted);
  }

  /** How many removals go through before the first one the store refuses. */
  function Removed(accepted: seq<bool>): (n: nat)
    ensures n <= |accepted|
    ensures forall j :: 0 <= j < n ==> accepted[j]
    ensures n < |accepted| ==> !accepted[n]
  {
    if accepted == [] || !accepted[0] then 0 else 1 + Removed(accepted[1..])
  }

  /**
   * `offlineCache.clearAll()`: removes each of the six cache keys in turn. `accepted[i]` is
   * the store's decision on the `i`th removal; the first refusal throws out of the loop,
   * keeping the removals before it, and is reported as false.
   */
  method ClearAll(store: Store, accepted: seq<bool>) returns (ok: bool)
    requires |accepted| == |CACHE_KEYS|
    modifies store
    ensures ok <==> Removed(accepted) == |CACHE_KEYS|
    ensures store.items == old(store.items) - set j | 0 <= j < Removed(accepted) :: CACHE_KEYS[j]
    ensures ok ==> store.items == old(store.items) - set k | k in CACHE_KEYS
  {
    for i := 0 to |CACHE_KEYS|
      invariant i <= Removed(accepted)
      invariant store.items == old(store.items) - set j | 0 <= j < i :: CACHE_KEYS[j]
    {
      var removed := store.RemoveItem(CACHE_KEYS[i], accepted[i]);
      if !removed {
        return false;
      }
      assert (set j | 0 <= j < i + 1 :: CACHE_KEYS[j]) == (set j | 0 <= j < i :: CACHE_KEYS[j]) + {CACHE_KEYS[i]};
    }
    assert (set j | 0 <= j < |CACHE_KEYS| :: CACHE_KEYS[j]) == set k | k in CACHE_KEYS;
    ok := true;
  }

  /**
   * `offlineCache.updateLastSync()`: stores `now` in decimal under LAST_SYNC. The source does
   * not catch a refused write, so `ok == false` stands for the exception reaching the caller.
   */
  method UpdateLastSync(store: Store, now: int, accepted: bool) returns (ok: bool)
    modifies store
    ensures ok == accepted
    ensures store.items == if ok then old(store.items)[LAST_SYNC := IntToString(now)] else old(store.items)
  {
    ok := store.SetItem(LAST_SYNC, IntToString(now), accepted);
  }

  /** After a successful `set(key, v)`, `get(key)` returns `v`. */
  lemma GetAfterSet(items: map<string, string>, codec: Codec, key: string, v: Json, now: int)
    requires Lawful(codec)
    ensures Get(items[key := codec.stringify(Envelope(v, now))], codec, key) == Value(v)
  {
    var e := Envelope(v, now);
    assert codec.stringify(e) != "" && codec.parse(codec.stringify(e)) == Some(e);
  }

  /**
   * Freshness boundary: an entry written at `t0` is valid at `now` exactly when
   * `now < t0 + maxAge`.
   */
  lemma IsValidAfterSet(items: map<string, string>, codec: Codec, key: string, v: Json, t0: int, maxAge: int, now: int)
    requires Lawful(codec)
    ensures IsValid(items[key := codec.stringify(Envelope(v, t0))], codec, key, maxAge, now) <==> now < t0 + maxAge
  {
    var e := Envelope(v, t0);
    assert codec.stringify(e) != "" && codec.parse(codec.stringify(e)) == Some(e);
  }

  /** Writing one key leaves what `get` and `isValid` report for every other key unchanged. */
  lemma SetIsolated(items: map<string, string>, codec: Codec, key: string, other: string, s: string, maxAge: int, now: int)
    requires other != key
    ensures Get(items[key := s], codec, other) == Get(items, codec, other)
    ensures IsValid(items[key := s], codec, other, maxAge, now) == IsValid(items, codec, other, maxAge, now)
  {
    assert other in items[key := s] <==> other in items;
  }

  /** `updateLastSync()` at `now` followed by `getLastSync()` gives back the time `now`. */
  lemma LastSyncRoundTrip(items: map<string, string>, now: int)
    ensures GetLastSync(items[LAST_SYNC := IntToString(now)]) == SyncedAt(now)
  {
    ParseIntOfIntToString(now);
  }

  /** After `clearAll()` no cache key reads as a value and there is no last-sync time. */
  lemma ClearedReadsEmpty(items: map<string, string>, codec: Codec, key: string, maxAge: int, now: int)
    requires key in CACHE_KEYS
    ensures Get(items - (set k | k in CACHE_KEYS), codec, key) == Null
    ensures !IsValid(items - (set k | k in CACHE_KEYS), codec, key, maxAge, now)
    ensures GetLastSync(items - (set k | k in CACHE_KEYS)) == NoSync
  {
    assert LAST_SYNC in CACHE_KEYS;
  }
}
