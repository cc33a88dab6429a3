/**
 * The caching transport of src/services/facr/facrApi.ts: the request interceptor that
 * answers fresh GET requests from the cache, the response interceptor that stores
 * successful GET responses, and the exchange of one request through both of them
 * with the network in between.
 *
 * The network is a parameter: the `Reply` it would give if the request is dispatched.
 * `now` is `Date.now()` in the request interceptor and `at` is `Date.now()` in the
 * response interceptor.
 *
 * `Exchange`, which `Send` and the client are proved against, is the transport as it runs:
 * a cache hit is stored again, so reading an entry renews it. `ExchangeWithoutRenewal` is
 * the exchange with the fixed lifetime the TTL evidently means. `ExchangeAsWritten` is the
 * exchange for a config whose method is not lower-cased, where the two interceptors build
 * different keys; everything else uses the lower-cased key of `Intercept`.
 */
module Transport {
  import opened Wrappers
  import opened Text
  import opened Json
  import opened Errors
  import opened Caching

  /** The parts of an axios request configuration the cache looks at. */
  datatype Config = Config(verb: Option<string>, url: string, params: Option<seq<Param>>)

  /** A response as the caller receives it: payload, status, status text and the request it answers. */
  datatype Response<T> = Response(data: T, status: int, statusText: string, config: Config)

  /** What the request interceptor returns: the config unchanged, or one whose adapter answers from the cache. */
  datatype Dispatch<T> = Network(config: Config) | Cached(response: Response<T>)

  /** What the network would answer: a successful (2xx) response, or a failure. */
  datatype Reply<T> = Answered(data: T, status: int, statusText: string) | Failed(failure: ApiFailure)

  /** How a request settles: with a response, or rejected with a failure. */
  datatype Outcome<T> = Delivered(response: Response<T>) | Rejected(failure: ApiFailure)

  /** `method?.toLowerCase() === 'get'`: only GET requests take part in caching. */
  predicate IsGet(c: Config)
  {
    c.verb.Some? && Lower(c.verb.value) == "get"
  }

  /** A template-literal substitution `${x}` of an optional string. */
  function Interpolate(x: Option<string>): string
  {
    x.GetOr("undefined")
  }

  /** The optional method, lower-cased when present: `method?.toLowerCase()`. */
  function LowerMethod(m: Option<string>): Option<string>
  {
    match m
    case None => None
    case Some(s) => Some(Lower(s))
  }

  /** The cache key `method:url:JSON.stringify(params)`, built with the lower-cased method. */
  function CacheKey(c: Config): string
  {
    Interpolate(LowerMethod(c.verb)) + [':'] + c.url + [':'] + Stringify(c.params)
  }

  /** The key the request interceptor builds as written: with the method exactly as configured. */
  function RequestKeyAsWritten(c: Config): string
  {
    Interpolate(c.verb) + [':'] + c.url + [':'] + Stringify(c.params)
  }

  /** The request interceptor's decision for a GET request looked up under `key`. */
  function Serve<T>(entries: map<string, Entry<T>>, key: string, c: Config, now: nat, ttl: int): Dispatch<T>
  {
    if key in entries && IsFresh(entries[key], now, ttl)
    then Cached(Response(entries[key].data, 200, "OK", c))
    else Network(c)
  }

  /** The request interceptor: non-GET requests pass unchanged; a fresh entry short-circuits the network. */
  function Intercept<T>(entries: map<string, Entry<T>>, c: Config, now: nat, ttl: int): Dispatch<T>
  {
    if !IsGet(c) then Network(c) else Serve(entries, CacheKey(c), c, now, ttl)
  }

  /** The request interceptor as written, looking the entry up under `RequestKeyAsWritten`. */
  function InterceptAsWritten<T>(entries: map<string, Entry<T>>, c: Config, now: nat, ttl: int): Dispatch<T>
  {
    if !IsGet(c) then Network(c) else Serve(entries, RequestKeyAsWritten(c), c, now, ttl)
  }

  /** The network's reply to a dispatched request, as it reaches the response interceptor. */
  function Deliver<T>(c: Config, reply: Reply<T>): Outcome<T>
  {
    match reply
    case Answered(data, status, statusText) => Delivered(Response(data, status, statusText, c))
    case Failed(failure) => Rejected(failure)
  }

  /** The response interceptor's effect on the cache: a successful GET is stored with time `at`. */
  function WriteBack<T>(entries: map<string, Entry<T>>, o: Outcome<T>, at: nat): map<string, Entry<T>>
  {
    match o
    case Delivered(r) =>
      if IsGet(r.config) then entries[CacheKey(r.config) := Entry(r.data, at)] else entries
    case Rejected(_) => entries
  }

  /**
   * A dispatched request runs to completion: the response, whether the network's or the
   * one the adapter made from a cache hit, passes through the response interceptor.
   */
  function Complete<T>(entries: map<string, Entry<T>>, d: Dispatch<T>, reply: Reply<T>, at: nat)
    : (map<string, Entry<T>>, Outcome<T>)
  {
    var o := match d
             case Cached(r) => Delivered(r)
             case Network(c') => Deliver(c', reply);
    (WriteBack(entries, o, at), o)
  }

  /**
   * One request through the transport: the new cache and how the request settles. axios has
   * lower-cased the method before the interceptors run, so both build the key `CacheKey`.
   * A hit is answered from the cache and, being a successful GET response like any other,
   * stored again with time `at`.
   */
  function Exchange<T>(entries: map<string, Entry<T>>, c: Config, now: nat, ttl: int, reply: Reply<T>, at: nat)
    : (map<string, Entry<T>>, Outcome<T>)
  {
    Complete(entries, Intercept(entries, c, now, ttl), reply, at)
  }

  /**
   * The exchange the TTL is evidently meant for: a hit is returned as it is and leaves the
   * cache alone, so an entry expires `ttl` after the response that filled it.
   */
  function ExchangeWithoutRenewal<T>(entries: map<string, Entry<T>>, c: Config, now: nat, ttl: int,
                                     reply: Reply<T>, at: nat)
    : (map<string, Entry<T>>, Outcome<T>)
  {
    match Intercept(entries, c, now, ttl)
    case Cached(r) => (entries, Delivered(r))
    case Network(c') => Complete(entries, Network(c'), reply, at)
  }

  /**
   * One request through the transport for a config whose method has not been lower-cased:
   * the request interceptor then looks the entry up under `RequestKeyAsWritten`.
   */
  function ExchangeAsWritten<T>(entries: map<string, Entry<T>>, c: Config, now: nat, ttl: int, reply: Reply<T>, at: nat)
    : (map<string, Entry<T>>, Outcome<T>)
  {
    Complete(entries, InterceptAsWritten(entries, c, now, ttl), reply, at)
  }

  // ---------------------------------------------------------------------------
  // The interceptors over the shared store

  /** The request interceptor, reading the shared store. */
  method RequestInterceptor<T>(store: CacheStore<T>, c: Config, now: nat, ttl: int) returns (d: Dispatch<T>)
    ensures d == Intercept(store.entries, c, now, ttl)
  {
    if !IsGet(c) {
      return Network(c);
    }
    var cached := store.Lookup(CacheKey(c));
    if cached.Some? && IsFresh(cached.value, now, ttl) {
      d := Cached(Response(cached.value.data, 200, "OK", c));
    } else {
      d := Network(c);
    }
  }

  /** The response interceptor: stores a successful GET response and passes every outcome on unchanged. */
  method ResponseInterceptor<T>(store: CacheStore<T>, o: Outcome<T>, at: nat) returns (passed: Outcome<T>)
    modifies store
    ensures store.entries == WriteBack(old(store.entries), o, at)
    ensures passed == o
  {
    if o.Delivered? && IsGet(o.response.config) {
      store.Store(CacheKey(o.response.config), o.response.data, at);
    }
    passed := o;
  }

  /**
   * Sends one request through the interceptors, dispatching it to the network only on a miss;
   * either way the response passes through the response interceptor.
   */
  method Send<T>(store: CacheStore<T>, c: Config, now: nat, ttl: int, reply: Reply<T>, at: nat) returns (o: Outcome<T>)
    modifies store
    ensures (store.entries, o) == Exchange(old(store.entries), c, now, ttl, reply, at)
  {
    var d := RequestInterceptor(store, c, now, ttl);
    match d
    case Cached(r) =>
      o := ResponseInterceptor(store, Delivered(r), at);
    case Network(c') =>
      o := ResponseInterceptor(store, Deliver(c', reply), at);
  }

  // ---------------------------------------------------------------------------
  // Properties

  /** A request that is not a GET passes the request interceptor unchanged, whatever the cache holds. */
  lemma NonGetPassesThrough<T>(entries: map<string, Entry<T>>, c: Config, now: nat, ttl: int, reply: Reply<T>, at: nat)
    requires !IsGet(c)
    ensures Intercept(entries, c, now, ttl) == Network(c)
    ensures Exchange(entries, c, now, ttl, reply, at) == (entries, Deliver(c, reply))
  {
  }

  /** A request is answered from the cache exactly when it is a GET and its entry is younger than the TTL. */
  lemma ServedIffFresh<T>(entries: map<string, Entry<T>>, c: Config, now: nat, ttl: int)
    ensures Intercept(entries, c, now, ttl).Cached? <==>
      IsGet(c) && CacheKey(c) in entries && now - entries[CacheKey(c)].timestamp < ttl
    ensures Intercept(entries, c, now, ttl).Network? ==> Intercept(entries, c, now, ttl).config == c
  {
  }

  /**
   * A cache hit answers with exactly the cached payload, status 200 and "OK", and the
   * network's reply plays no part. The response interceptor stores the payload again with
   * time `at`; every other entry stays as it was.
   */
  lemma HitIgnoresNetwork<T>(entries: map<string, Entry<T>>, c: Config, now: nat, ttl: int,
                             reply1: Reply<T>, reply2: Reply<T>, at: nat)
    requires Intercept(entries, c, now, ttl).Cached?
    ensures CacheKey(c) in entries
    ensures Exchange(entries, c, now, ttl, reply1, at)
         == (entries[CacheKey(c) := Entry(entries[CacheKey(c)].data, at)],
             Delivered(Response(entries[CacheKey(c)].data, 200, "OK", c)))
    ensures Exchange(entries, c, now, ttl, reply1, at) == Exchange(entries, c, now, ttl, reply2, at)
  {
  }

  /**
   * A GET that misses and succeeds stores its payload under its key with the response
   * time, leaves every other key as it was, and is returned unmodified.
   */
  lemma SuccessfulGetIsStored<T>(entries: map<string, Entry<T>>, c: Config, now: nat, ttl: int,
                                 data: T, status: int, statusText: string, at: nat)
    requires IsGet(c) && Intercept(entries, c, now, ttl).Network?
    ensures Exchange(entries, c, now, ttl, Answered(data, status, statusText), at)
         == (entries[CacheKey(c) := Entry(data, at)], Delivered(Response(data, status, statusText, c)))
    ensures forall k :: k in entries && k != CacheKey(c) ==>
      var e := Exchange(entries, c, now, ttl, Answered(data, status, statusText), at).0;
      k in e && e[k] == entries[k]
  {
  }

  /**
   * A request that goes to the network and fails, and any non-GET request, leave the cache
   * exactly as it was; the failure is passed on. (A GET answered from the cache never sees
   * the network's failure: see `HitIgnoresNetwork`.)
   */
  lemma NoStoreOnFailureOrNonGet<T>(entries: map<string, Entry<T>>, c: Config, now: nat, ttl: int,
                                    reply: Reply<T>, at: nat)
    requires reply.Failed? || !IsGet(c)
    ensures Intercept(entries, c, now, ttl).Network? ==> Exchange(entries, c, now, ttl, reply, at).0 == entries
    ensures !IsGet(c) ==> Exchange(entries, c, now, ttl, reply, at).0 == entries
    ensures reply.Failed? && Intercept(entries, c, now, ttl).Network? ==>
      Exchange(entries, c, now, ttl, reply, at).1 == Rejected(reply.failure)
  {
  }

  /** The response interceptor never removes an entry and changes at most the key of the response. */
  lemma WriteBackTouchesOneKey<T>(entries: map<string, Entry<T>>, o: Outcome<T>, at: nat)
    ensures entries.Keys <= WriteBack(entries, o, at).Keys
    ensures forall k :: k in entries && (o.Rejected? || k != CacheKey(o.response.config)) ==>
      WriteBack(entries, o, at)[k] == entries[k]
  {
  }

  /** After `clearCache`, every request misses, whatever the TTL. */
  lemma ClearedStoreMisses<T>(c: Config, now: nat, ttl: int)
    ensures Intercept<T>(map[], c, now, ttl) == Network(c)
  {
  }

  /**
   * Write-through: once a GET has succeeded at time `at`, the same request made while
   * `now' - at < ttl` is answered from the cache with the same payload and the network is
   * not consulted; the entry keeps its payload and takes the time `at'` of the second
   * response. With the lower-cased key the method may be spelled in any case.
   */
  lemma {:induction false} RepeatedGetIsServed<T>(entries: map<string, Entry<T>>, c: Config, now: nat, ttl: int,
                                                 data: T, status: int, statusText: string, at: nat,
                                                 now': nat, reply': Reply<T>, at': nat)
    requires IsGet(c) && Intercept(entries, c, now, ttl).Network?
    requires now' - at < ttl
    ensures var (e1, o1) := Exchange(entries, c, now, ttl, Answered(data, status, statusText), at);
            var (e2, o2) := Exchange(e1, c, now', ttl, reply', at');
            o1 == Delivered(Response(data, status, statusText, c))
            && e2 == e1[CacheKey(c) := Entry(data, at')] && o2 == Delivered(Response(data, 200, "OK", c))
  {
    var e1 := Exchange(entries, c, now, ttl, Answered(data, status, statusText), at).0;
    assert e1 == entries[CacheKey(c) := Entry(data, at)];
    assert CacheKey(c) in e1 && e1[CacheKey(c)] == Entry(data, at);
    assert Intercept(e1, c, now', ttl) == Cached(Response(data, 200, "OK", c));
  }

  /**
   * Without renewal the TTL counts from the response that filled the entry: a GET whose
   * entry was stored at `t0` is answered from the cache at `t0 + ttl - 1`, the read leaves
   * the cache as it was, and the request goes to the network again at `t0 + ttl`.
   */
  lemma {:induction false} ReadsDoNotExtendLifetime<T>(entries: map<string, Entry<T>>, c: Config, ttl: int,
                                                      reply: Reply<T>, at: nat)
    requires IsGet(c) && CacheKey(c) in entries && ttl > 0
    ensures var t0 := entries[CacheKey(c)].timestamp;
            var (e1, o1) := ExchangeWithoutRenewal(entries, c, t0 + ttl - 1, ttl, reply, at);
            o1.Delivered? && o1.response.data == entries[CacheKey(c)].data
            && e1 == entries && Intercept(e1, c, t0 + ttl, ttl).Network?
  {
    var t0 := entries[CacheKey(c)].timestamp;
    assert Intercept(entries, c, t0 + ttl - 1, ttl).Cached?;
  }

  /**
   * The renewal of a hit is the only thing that sets the transport apart from the exchange
   * without renewal: both settle every request alike, a miss leaves both caches alike, and
   * after a hit the transport's cache differs only in the hit entry's time, which is `at`.
   */
  lemma RenewalIsTheOnlyDifference<T>(entries: map<string, Entry<T>>, c: Config, now: nat, ttl: int,
                                      reply: Reply<T>, at: nat)
    ensures Exchange(entries, c, now, ttl, reply, at).1 == ExchangeWithoutRenewal(entries, c, now, ttl, reply, at).1
    ensures Intercept(entries, c, now, ttl).Network? ==>
      Exchange(entries, c, now, ttl, reply, at).0 == ExchangeWithoutRenewal(entries, c, now, ttl, reply, at).0
    ensures Intercept(entries, c, now, ttl).Cached? ==>
      CacheKey(c) in entries &&
      ExchangeWithoutRenewal(entries, c, now, ttl, reply, at).0 == entries &&
      Exchange(entries, c, now, ttl, reply, at).0 == entries[CacheKey(c) := Entry(entries[CacheKey(c)].data, at)]
  {
  }

  /** Two requests for the same method and URL share a key only when their parameters are the same, in the same order. */
  lemma KeyDistinguishesParams(c1: Config, c2: Config)
    requires c1.verb == c2.verb && c1.url == c2.url && c1.params != c2.params
    ensures CacheKey(c1) != CacheKey(c2)
  {
    var prefix := Interpolate(LowerMethod(c1.verb)) + [':'] + c1.url + [':'];
    assert CacheKey(c1) == prefix + Stringify(c1.params);
    assert CacheKey(c2) == prefix + Stringify(c2.params);
    StringifyInjective(c1.params, c2.params);
    if CacheKey(c1) == CacheKey(c2) {
      PrefixCancel(prefix, Stringify(c1.params), Stringify(c2.params));
    }
  }

  // ---------------------------------------------------------------------------
  // The code as written

  /**
   * As written, a request whose method is configured as "GET" is never answered from the
   * cache: its entry is stored under "get:..." and looked up under "GET:...". Starting from
   * an empty cache, the same successful request sent twice goes to the network both times.
   */
  lemma {:induction false} UpperCaseGetNeverServedAsWritten<T>(url: string, params: Option<seq<Param>>, ttl: int,
                                                              data: T, now: nat, at: nat, now': nat, reply': Reply<T>)
    ensures var c := Config(Some("GET"), url, params);
            var e1 := ExchangeAsWritten(map[], c, now, ttl, Answered(data, 200, "OK"), at).0;
            IsGet(c) && e1 != map[] && InterceptAsWritten(e1, c, now', ttl) == Network(c)
  {
    var c := Config(Some("GET"), url, params);
    LowerOfGet();
    assert IsGet(c);
    var e1 := ExchangeAsWritten(map[], c, now, ttl, Answered(data, 200, "OK"), at).0;
    assert e1 == map[CacheKey(c) := Entry(data, at)];
    assert CacheKey(c) in e1;
    assert RequestKeyAsWritten(c) != CacheKey(c) by {
      assert RequestKeyAsWritten(c)[0] == 'G';
      assert CacheKey(c)[0] == 'g';
    }
    assert RequestKeyAsWritten(c) !in e1;
  }

  /**
   * As written, a hit is stored again with the time of the hit, so the TTL restarts at every
   * read: an entry stored at `t0` and read at `t0 + ttl - 1` is still answered from the
   * cache at `t0 + ttl`, and at `t0 + 2 * ttl - 2`, although its payload was fetched long
   * before. Compare `ReadsDoNotExtendLifetime`.
   */
  lemma {:induction false} HitRenewsEntryAsWritten<T>(data: T, t0: nat, ttl: nat, reply: Reply<T>)
    requires ttl > 1
    ensures var c := Config(Some("get"), "/club/football/1", None);
            var e0 := map[CacheKey(c) := Entry(data, t0)];
            var (e1, o1) := Exchange(e0, c, t0 + ttl - 1, ttl, reply, t0 + ttl - 1);
            var (e2, o2) := Exchange(e1, c, t0 + ttl, ttl, reply, t0 + ttl);
            o1 == Delivered(Response(data, 200, "OK", c))
            && e1 == map[CacheKey(c) := Entry(data, t0 + ttl - 1)]
            && o2 == Delivered(Response(data, 200, "OK", c))
            && Intercept(e1, c, t0 + 2 * ttl - 2, ttl).Cached?
  {
    var c := Config(Some("get"), "/club/football/1", None);
    LowerOfGet();
    var e0 := map[CacheKey(c) := Entry(data, t0)];
    assert Intercept(e0, c, t0 + ttl - 1, ttl) == Cached(Response(data, 200, "OK", c));
    var e1 := map[CacheKey(c) := Entry(data, t0 + ttl - 1)];
    assert Exchange(e0, c, t0 + ttl - 1, ttl, reply, t0 + ttl - 1).0 == e1;
    assert Intercept(e1, c, t0 + ttl, ttl) == Cached(Response(data, 200, "OK", c));
  }
}
