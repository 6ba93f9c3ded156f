/**
 * The worker's `fetch` handler: a read-through cache of the product list in
 * one KV key. A fresh record is served as stored; a missing or stale one is
 * replaced by a new fetch from Square, stored with the time of the write.
 *
 * The KV namespace is a map from keys to stored values. Serialising a record
 * with `JSON.stringify` and reading it back with `JSON.parse` is taken to
 * round-trip; other stored text is classified by what lines 126-131 of the
 * handler do with it (see `StoredValue`).
 */
module Cache {
  import opened Wrappers
  import opened Catalog
  import Config

  const CacheKey: string := "product_list_cache"
  const MillisPerMinute: int := 60000

  /** The `{data, timestamp}` record; `timestamp` is in milliseconds since the epoch. */
  datatype CacheRecord = CacheRecord(data: seq<Product>, timestamp: int)

  /** The text stored under the cache key, by what the handler does with it. */
  datatype StoredValue =
    | Parsed(record: CacheRecord)  // an object with `data` and a numeric `timestamp`
    | EmptyText                    // "": falsy, handled as a missing record
    | NoTimestamp                  // JSON other than null whose `timestamp` is undefined: the age is NaN
    | Unparseable                  // text on which `JSON.parse` throws, or "null" (reading `timestamp` throws)

  /**
   * The KV namespace, taken to be strongly consistent: every `get` sees the
   * last `put`.
   */
  type Store = map<string, StoredValue>

  /** Why a request fails. */
  datatype HandlerError =
    | FetchFailed(error: Error)    // a Square call or the transform failed
    | CorruptCache                 // the stored value is `Unparseable`
    | KvGetFailed                  // `KV_NAMESPACE.get` rejected
    | KvPutFailed                  // `KV_NAMESPACE.put` rejected

  /**
   * Everything one request depends on besides the KV contents: the setting
   * `env.CACHE_EXPIRATION_MINUTES`, the clock when the cache age is computed
   * and when a new record is built, the two Square replies (`None` for a
   * reply that is not OK), and whether the KV `get` and `put` succeed.
   */
  datatype Request = Request(
    setting: Option<string>,
    nowAtCheck: int,
    nowAtStore: int,
    list: Option<ListResponse>,
    batch: Option<BatchResponse>,
    getOk: bool,
    putOk: bool)

  /** What one request returns and what the KV namespace holds afterwards. */
  datatype Outcome = Outcome(response: Result<seq<Product>, HandlerError>, store: Store)

  /**
   * `ageInMinutes < CACHE_EXPIRATION_MINUTES`, with the age computed exactly.
   * In integers: the age in milliseconds is strictly below the lifetime in
   * milliseconds, so an age equal to the lifetime is stale; a NaN lifetime
   * (`None`) makes the comparison false.
   */
  function IsFresh(record: CacheRecord, now: int, expiration: Option<int>): (current: bool)
    ensures current <==> expiration.Some? && now - record.timestamp < expiration.value * MillisPerMinute
  {
    if expiration.None? then false
    else
      var age, limit := (now - record.timestamp) as real, expiration.value as real;
      var perMinute := MillisPerMinute as real;
      assert age / perMinute < limit <==> age < limit * perMinute;
      age / perMinute < limit
  }

  /**
   * `fetchFromSquareAPI`: the two Square calls and the transform, then the
   * write of `{data, timestamp}` under the cache key. The data is returned
   * only when the write succeeds; a failure leaves the KV namespace as it was.
   */
  function Refresh(store: Store, req: Request): (o: Outcome)
    ensures o.response.Success? <==> FetchProducts(req.list, req.batch).Success? && req.putOk
    ensures o.response.Success? ==>
              && o.response.value == FetchProducts(req.list, req.batch).value
              && o.store == store[CacheKey := Parsed(CacheRecord(o.response.value, req.nowAtStore))]
    ensures o.response.Failure? ==> o.store == store
    ensures FetchProducts(req.list, req.batch).Failure? ==>
              o.response == Failure(FetchFailed(FetchProducts(req.list, req.batch).error))
  {
    match FetchProducts(req.list, req.batch)
    case Failure(e) => Outcome(Failure(FetchFailed(e)), store)
    case Success(data) =>
      if req.putOk then Outcome(Success(data), store[CacheKey := Parsed(CacheRecord(data, req.nowAtStore))])
      else Outcome(Failure(KvPutFailed), store)
  }

  /**
   * One request. Every request leaves every other key as it was and adds no
   * key other than the cache key; a failed request changes nothing; a
   * successful one either changes nothing or leaves under the cache key a
   * record of exactly the data returned, stamped with the write-time clock.
   */
  function Serve(store: Store, req: Request): (o: Outcome)
    ensures !req.getOk ==> o == Outcome(Failure(KvGetFailed), store)
    ensures o.store.Keys <= store.Keys + {CacheKey}
    ensures forall k :: k in store && k != CacheKey ==> k in o.store && o.store[k] == store[k]
    ensures o.response.Failure? ==> o.store == store
    ensures o.response.Success? ==>
              o.store == store || (CacheKey in o.store && o.store[CacheKey] == Parsed(CacheRecord(o.response.value, req.nowAtStore)))
  {
    if !req.getOk then Outcome(Failure(KvGetFailed), store)
    else if CacheKey !in store then Refresh(store, req)
    else match store[CacheKey]
      case EmptyText => Refresh(store, req)
      case NoTimestamp => Refresh(store, req)
      case Unparseable => Outcome(Failure(CorruptCache), store)
      case Parsed(record) =>
        if IsFresh(record, req.nowAtCheck, Config.ExpirationMinutes(req.setting)) then Outcome(Success(record.data), store)
        else Refresh(store, req)
  }

  /**
   * A fresh record is served exactly as stored, whatever Square would have
   * answered and whether or not a write would succeed, and the KV namespace
   * is left as it was.
   */
  lemma ServeFreshRecord(store: Store, req: Request, m: int)
    requires req.getOk
    requires CacheKey in store && store[CacheKey].Parsed?
    requires Config.ExpirationMinutes(req.setting) == Some(m)
    requires req.nowAtCheck - store[CacheKey].record.timestamp < m * MillisPerMinute
    ensures Serve(store, req) == Outcome(Success(store[CacheKey].record.data), store)
  {
  }

  /**
   * With no record, an empty value, a value without a timestamp, or a record
   * at least as old as the lifetime, the request refetches: the response is
   * the fetch's data when both Square calls, the transform and the write
   * succeed, and the record is then stored with the write-time clock.
   */
  lemma ServeMissingOrStale(store: Store, req: Request)
    requires req.getOk
    requires || CacheKey !in store
             || store[CacheKey] == EmptyText
             || store[CacheKey] == NoTimestamp
             || (&& store[CacheKey].Parsed?
                 && (Config.ExpirationMinutes(req.setting).Some? ==>
                       req.nowAtCheck - store[CacheKey].record.timestamp
                         >= Config.ExpirationMinutes(req.setting).value * MillisPerMinute))
    ensures var o := Serve(store, req);
      && (o.response.Success? <==> FetchProducts(req.list, req.batch).Success? && req.putOk)
      && (o.response.Success? ==>
            && o.response.value == FetchProducts(req.list, req.batch).value
            && o.store == store[CacheKey := Parsed(CacheRecord(o.response.value, req.nowAtStore))])
      && (o.response.Failure? ==> o.store == store)
  {
  }

  /**
   * A stored value on which `JSON.parse` throws, or "null", makes the request
   * fail before Square is asked, and nothing is written.
   */
  lemma ServeCorruptCache(store: Store, req: Request)
    requires req.getOk
    requires CacheKey in store && store[CacheKey] == Unparseable
    ensures Serve(store, req) == Outcome(Failure(CorruptCache), store)
  {
  }

  /** With a lifetime setting that `parseInt` reads as NaN, every request that does not fail on the KV read refetches. */
  lemma ServeNaNLifetime(store: Store, req: Request)
    requires req.getOk
    requires Config.ExpirationMinutes(req.setting) == None
    requires CacheKey in store ==> store[CacheKey] != Unparseable
    ensures Serve(store, req) == Refresh(store, req)
  {
  }

  /**
   * After a request that refetched and stored its data, a second request
   * whose clock is within the lifetime of the write is served the same data
   * from the cache, whatever Square answers, and writes nothing.
   */
  lemma SecondRequestHitsCache(store: Store, first: Request, second: Request, m: int)
    requires Config.ExpirationMinutes(first.setting) == Some(m) && second.setting == first.setting
    requires Serve(store, first) == Refresh(store, first)
    requires Serve(store, first).response.Success?
    requires second.getOk
    requires second.nowAtCheck - first.nowAtStore < m * MillisPerMinute
    ensures var o := Serve(store, first);
      Serve(o.store, second) == o
  {
    var o := Serve(store, first);
    assert o.store[CacheKey] == Parsed(CacheRecord(o.response.value, first.nowAtStore));
    ServeFreshRecord(o.store, second, m);
  }

  /**
   * The data a successful refetch serves and stores is the product list of
   * the listed catalog items: one product per item, in order, each with its
   * item's id, name, description and payment URL, and its first variation's
   * price in major units.
   */
  lemma RefreshedDataMirrorsCatalog(store: Store, req: Request)
    ensures var o := Refresh(store, req);
      o.response.Success? ==>
        && req.list.Some? && req.list.value.objects.Some?
        && var items := req.list.value.objects.value;
           && |o.response.value| == |items|
           && forall k :: 0 <= k < |items| ==>
                && o.response.value[k].id == items[k].id
                && o.response.value[k].name == items[k].name
                && o.response.value[k].description == items[k].description
                && items[k].variations != []
                && items[k].variations[0].priceAmount.Some?
                && o.response.value[k].price * 100.0 == items[k].variations[0].priceAmount.value as real
                && o.response.value[k].paymentUrl == PaymentUrl(items[k].customAttributes)
  {
    var o := Refresh(store, req);
    if o.response.Success? {
      var items := req.list.value.objects.value;
      if items != [] {
        ProductListMirrorsCatalog(items, req.batch.value.relatedObjects.value);
      }
    }
  }

  /**
   * The worker: its KV namespace, and the `fetch` handler that reads and
   * writes it.
   */
  class ProductCache {
    var kv: Store

    constructor(initial: Store)
      ensures kv == initial
    {
      kv := initial;
    }

    /**
     * `fetchFromSquareAPI`: the KV write happens only after both Square calls
     * and the transform have succeeded, and the data is returned only when
     * the write succeeds.
     */
    method FetchFromSquareApi(req: Request) returns (result: Result<seq<Product>, HandlerError>)
      modifies this
      ensures Outcome(result, kv) == Refresh(old(kv), req)
      ensures result.Success? ==> kv == old(kv)[CacheKey := Parsed(CacheRecord(result.value, req.nowAtStore))]
      ensures result.Failure? ==> kv == old(kv)
    {
      if req.list.None? {
        return Failure(FetchFailed(RequestFailed(ListEndpoint)));
      }
      var items := req.list.value.objects;
      if items.None? {
        return Failure(FetchFailed(ObjectsMissing));
      }
      if req.batch.None? {
        return Failure(FetchFailed(RequestFailed(BatchEndpoint)));
      }
      var products := MapItems(items.value, req.batch.value.relatedObjects);
      if products.Failure? {
        return Failure(FetchFailed(products.error));
      }
      if !req.putOk {
        return Failure(KvPutFailed);
      }
      kv := kv[CacheKey := Parsed(CacheRecord(products.value, req.nowAtStore))];
      result := Success(products.value);
    }

    /** The `fetch` handler. */
    method Handle(req: Request) returns (response: Result<seq<Product>, HandlerError>)
      modifies this
      ensures Outcome(response, kv) == Serve(old(kv), req)
      ensures response.Failure? ==> kv == old(kv)
      ensures req.getOk && CacheKey in old(kv) && old(kv)[CacheKey].Parsed?
              && IsFresh(old(kv)[CacheKey].record, req.nowAtCheck, Config.ExpirationMinutes(req.setting))
              ==> response == Success(old(kv)[CacheKey].record.data) && kv == old(kv)
    {
      var expiration := Config.ExpirationMinutes(req.setting);
      if !req.getOk {
        return Failure(KvGetFailed);
      }
      if CacheKey in kv {
        var cached := kv[CacheKey];
        if cached.Unparseable? {
          return Failure(CorruptCache);
        }
        if cached.Parsed? && IsFresh(cached.record, req.nowAtCheck, expiration) {
          return Success(cached.record.data);
        }
      }
      response := FetchFromSquareApi(req);
    }
  }
}
