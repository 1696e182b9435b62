/**
 * The `useOfflineCache` hook: a cache key, a fetcher and a maximum age drive the state
 * `(data, loading, error, isFromCache)`. The fetcher's result, the online flag, the clock
 * and the store's accept/refuse decisions are parameters of each step.
 */
module UseOfflineCache {
  import opened Common
  import opened Text
  import opened Json
  import opened LocalStorage
  import opened OfflineCache

  /** What the awaited `fetcher()` produced: a value, or a rejection with its message. */
  datatype Fetched = Fetched(value: Json) | FetchFailed(message: string)

  const NO_CONNECTION := "No internet connection and no cached data available"

  /** The exception a refused `updateLastSync` write throws (a `QuotaExceededError` DOMException). */
  const STORAGE_REFUSED := "QuotaExceededError"

  /** The store after a successful fetch: the envelope (if that write was accepted), then the last-sync time. */
  function AfterSync(items: map<string, string>, codec: Codec, key: string, v: Json, now: int, setAccepted: bool): map<string, string> {
    (if setAccepted then items[key := codec.stringify(Envelope(v, now))] else items)[LAST_SYNC := IntToString(now)]
  }

  class CachedFetch {
    const key: string
    const maxAge: int
    var data: Js
    var loading: bool
    var error: Option<string>
    var isFromCache: bool

    /** The hook's initial state: no data, loading, no error, not from the cache. */
    constructor (key: string, maxAge: int)
      ensures this.key == key && this.maxAge == maxAge
      ensures data == Null && loading && error == None && !isFromCache
    {
      this.key := key;
      this.maxAge := maxAge;
      data := Null;
      loading := true;
      error := None;
      isFromCache := false;
    }

    /**
     * The effect's `loadData`. A truthy, still valid cached value is shown first. Online, the
     * fetcher runs: on success the cache and the last-sync time are written and the fresh value
     * replaces the data; on failure the error is set and the store is untouched. Offline with
     * nothing cached the "no connection" error is set; offline with a stale entry nothing is
     * shown and no error is raised. `loading` is false at the end on every path.
     */
    method LoadData(store: Store, codec: Codec, online: bool, fetched: Fetched, readAt: int, writeAt: int,
                    setAccepted: bool, syncAccepted: bool)
      modifies this, store
      ensures !loading
      ensures var cached := Get(old(store.items), codec, key);
              var shown := Truthy(cached) && IsValid(old(store.items), codec, key, maxAge, readAt);
              && (online && fetched.Fetched? && syncAccepted ==>
                    && store.items == AfterSync(old(store.items), codec, key, fetched.value, writeAt, setAccepted)
                    && data == Value(fetched.value) && !isFromCache && error == None)
              && (online && fetched.Fetched? && !syncAccepted ==>
                    && store.items == (if setAccepted then old(store.items)[key := codec.stringify(Envelope(fetched.value, writeAt))] else old(store.items))
                    && data == (if shown then cached else old(data))
                    && isFromCache == (shown || old(isFromCache))
                    && error == Some(STORAGE_REFUSED))
              && (online && fetched.FetchFailed? ==>
                    && store.items == old(store.items)
                    && data == (if shown then cached else old(data))
                    && isFromCache == (shown || old(isFromCache))
                    && error == Some(fetched.message))
              && (!online ==>
                    && store.items == old(store.items)
                    && data == (if shown then cached else old(data))
                    && isFromCache == (shown || old(isFromCache))
                    && error == (if Truthy(cached) then old(error) else Some(NO_CONNECTION)))
    {
      var cachedData := Get(store.items, codec, key);
      var cacheValid := IsValid(store.items, codec, key, maxAge, readAt);
      if Truthy(cachedData) && cacheValid {
        data := cachedData;
        isFromCache := true;
        loading := false;
      }
      if online {
        match fetched {
          case FetchFailed(message) =>
            error := Some(message);
          case Fetched(freshData) =>
            var written := Set(store, codec, key, freshData, writeAt, setAccepted);
            var synced := UpdateLastSync(store, writeAt, syncAccepted);
            if synced {
              data := Value(freshData);
              isFromCache := false;
              error := None;
            } else {
              error := Some(STORAGE_REFUSED);
            }
        }
      } else if !Truthy(cachedData) {
        error := Some(NO_CONNECTION);
      }
      loading := false;
    }

    /**
     * `refresh()`: offline it changes nothing. Online it fetches again: success writes the
     * cache and shows the fresh value; failure sets the error and keeps `data` and
     * `isFromCache`. `loading` is false at the end.
     */
    method Refresh(store: Store, codec: Codec, online: bool, fetched: Fetched, now: int,
                   setAccepted: bool, syncAccepted: bool)
      modifies this, store
      ensures !online ==> unchanged(this, store)
      ensures online ==> !loading
      ensures online && fetched.Fetched? && syncAccepted ==>
                && store.items == AfterSync(old(store.items), codec, key, fetched.value, now, setAccepted)
                && data == Value(fetched.value) && !isFromCache && error == None
      ensures online && fetched.Fetched? && !syncAccepted ==>
                && store.items == (if setAccepted then old(store.items)[key := codec.stringify(Envelope(fetched.value, now))] else old(store.items))
                && data == old(data) && isFromCache == old(isFromCache) && error == Some(STORAGE_REFUSED)
      ensures online && fetched.FetchFailed? ==>
                && store.items == old(store.items)
                && data == old(data) && isFromCache == old(isFromCache) && error == Some(fetched.message)
    {
      if !online {
        return;
      }
      loading := true;
      match fetched {
        case FetchFailed(message) =>
          error := Some(message);
        case Fetched(freshData) =>
          var written := Set(store, codec, key, freshData, now, setAccepted);
          var synced := UpdateLastSync(store, now, syncAccepted);
          if synced {
            data := Value(freshData);
            isFromCache := false;
            error := None;
          } else {
            error := Some(STORAGE_REFUSED);
          }
      }
      loading := false;
    }
  }

  /**
   * After a successful online load, the cache serves the fresh value, it is valid for
   * `maxAge` milliseconds from the write, and the last-sync time is the write time.
   */
  lemma SuccessfulLoadIsCached(items: map<string, string>, codec: Codec, key: string, v: Json, writeAt: int,
                                maxAge: int, now: int, setAccepted: bool)
    requires Lawful(codec)
    requires key != LAST_SYNC
    ensures setAccepted ==> Get(AfterSync(items, codec, key, v, writeAt, setAccepted), codec, key) == Value(v)
    ensures setAccepted ==>
              (IsValid(AfterSync(items, codec, key, v, writeAt, setAccepted), codec, key, maxAge, now) <==> now < writeAt + maxAge)
    ensures GetLastSync(AfterSync(items, codec, key, v, writeAt, setAccepted)) == SyncedAt(writeAt)
  {
    var withData := items[key := codec.stringify(Envelope(v, writeAt))];
    GetAfterSet(items, codec, key, v, writeAt);
    IsValidAfterSet(items, codec, key, v, writeAt, maxAge, now);
    SetIsolated(withData, codec, LAST_SYNC, key, IntToString(writeAt), maxAge, now);
    if setAccepted {
      LastSyncRoundTrip(withData, writeAt);
    } else {
      LastSyncRoundTrip(items, writeAt);
    }
  }
}
