/**
 * The storefront's request gateway: one object holding the response cache, the in-flight
 * promises and the abort controllers, each keyed by a request key.
 *
 * Time is the explicit parameter `now` (milliseconds). A promise and the controller created
 * with it share one token number. The request body's JSON text and the response data are
 * opaque strings. A fetch is started by `Request` and finished by a separate `Complete`
 * event carrying what the server answered; an aborted fetch always settles as an abort
 * error, whatever the server would have answered.
 */
module Api {
  import opened Strings
  import opened Numbers

  type Key = string

  /** Identifies one request: its promise and the `AbortController` created with it. */
  type Token = nat

  /** Response data and request bodies are JSON texts the gateway never looks into. */
  type Json = string

  /** How long a cached response is served, in milliseconds. */
  const CACHE_TTL: int := 10000

  /** How often the cache sweep runs, in milliseconds. */
  const SWEEP_INTERVAL: int := CACHE_TTL / 2

  const DEFAULT_API_BASE_URL: string := "http://localhost:3001/api"

  /** The explicit cache key of the product list, the one entry the product mutators invalidate. */
  const PRODUCTS_LIST_KEY: Key := "products:list"

  /** What `JSON.stringify(undefined)` becomes inside a template literal. */
  const NO_BODY: Json := "undefined"

  /** The reason an aborted fetch rejects with. */
  const ABORT_ERROR: string := "AbortError"

  /** The base URL: the configured one, or the local default when none is configured. */
  function ApiBaseUrl(configured: string): string {
    if configured != "" then configured else DEFAULT_API_BASE_URL
  }

  // ---------------------------------------------------------------------------
  // request keys

  /**
   * The arguments of one `request` call. `httpMethod` and `cacheKey` are "" when absent (the
   * source tests both with `||`, so an empty string counts as absent too); `bodyJson` is the
   * text `JSON.stringify(options.body)` yields.
   */
  datatype Call = Call(url: string, httpMethod: string, bodyJson: Json, useCache: bool, cacheKey: Key)

  /** `getRequestKey`: method, URL and body joined by colons. */
  function RequestKey(url: string, httpMethod: string, bodyJson: Json): Key {
    httpMethod + ":" + url + ":" + bodyJson
  }

  /** The key a call is filed under: its explicit cache key, else the key of method, full URL and body. */
  function KeyOf(baseUrl: string, c: Call): Key {
    if c.cacheKey != "" then c.cacheKey
    else RequestKey(baseUrl + c.url, if c.httpMethod != "" then c.httpMethod else "GET", c.bodyJson)
  }

  /** The number of times `c` occurs in `s`. */
  function CountChar(s: string, c: char): nat {
    if s == [] then 0 else (if s[0] == c then 1 else 0) + CountChar(s[1..], c)
  }

  lemma {:induction false} CountCharAppend(a: string, b: string, c: char)
    ensures CountChar(a + b, c) == CountChar(a, c) + CountChar(b, c)
  {
    if a == [] {
      assert a + b == b;
    } else {
      assert (a + b)[1..] == a[1..] + b;
      CountCharAppend(a[1..], b, c);
    }
  }

  lemma {:induction false} CountCharAbsent(s: string, c: char)
    requires forall k :: 0 <= k < |s| ==> s[k] != c
    ensures CountChar(s, c) == 0
  {
    if s != [] {
      CountCharAbsent(s[1..], c);
    }
  }

  /** A key built by `getRequestKey` holds at least two colons, whatever its parts. */
  lemma RequestKeyColons(url: string, httpMethod: string, bodyJson: Json)
    ensures CountChar(RequestKey(url, httpMethod, bodyJson), ':') >= 2
  {
    CountCharAppend(httpMethod + ":" + url + ":", bodyJson, ':');
    CountCharAppend(httpMethod + ":" + url, ":", ':');
    CountCharAppend(httpMethod + ":", url, ':');
    CountCharAppend(httpMethod, ":", ':');
  }

  /**
   * A call without an explicit cache key is never filed under `products:list` (which holds one
   * colon), so invalidating the product list can only drop the entry `getProducts` wrote.
   */
  lemma {:induction false} ComputedKeyIsNotProductsList(baseUrl: string, c: Call)
    requires c.cacheKey == ""
    ensures KeyOf(baseUrl, c) != PRODUCTS_LIST_KEY
  {
    var m := if c.httpMethod != "" then c.httpMethod else "GET";
    RequestKeyColons(baseUrl + c.url, m, c.bodyJson);
    assert PRODUCTS_LIST_KEY == "products" + ":" + "list";
    CountCharAbsent("products", ':');
    CountCharAbsent("list", ':');
    CountCharAppend("products" + ":", "list", ':');
    CountCharAppend("products", ":", ':');
  }

  /** `getRequestKey` is not injective: two different calls can share one key. */
  lemma RequestKeyCollides()
    ensures RequestKey("a:b", "GET", "c") == RequestKey("a", "GET", "b:c")
  {
  }

  // ---------------------------------------------------------------------------
  // cache entries and outcomes

  datatype CacheEntry = CacheEntry(data: Json, timestamp: int)

  /** An entry young enough to be served (its age is strictly below the TTL). */
  predicate Fresh(e: CacheEntry, now: int) {
    now - e.timestamp < CACHE_TTL
  }

  /** An entry the sweep removes (its age is strictly above the TTL). */
  predicate Expired(e: CacheEntry, now: int) {
    now - e.timestamp > CACHE_TTL
  }

  /** The cache after a sweep at `now`: every entry that has not expired, unchanged. */
  function Unexpired(cache: map<Key, CacheEntry>, now: int): map<Key, CacheEntry> {
    map k | k in cache && !Expired(cache[k], now) :: cache[k]
  }

  /** An entry the gateway would serve survives the sweep. */
  lemma SweepKeepsServableEntries(cache: map<Key, CacheEntry>, now: int, k: Key)
    requires k in cache && Fresh(cache[k], now)
    ensures k in Unexpired(cache, now) && Unexpired(cache, now)[k] == cache[k]
  {
  }

  /** The sweep drops exactly the expired entries and never adds or alters one. */
  lemma SweepExactlyDropsExpired(cache: map<Key, CacheEntry>, now: int)
    ensures forall k :: k in Unexpired(cache, now) <==> k in cache && !Expired(cache[k], now)
    ensures forall k :: k in Unexpired(cache, now) ==> Unexpired(cache, now)[k] == cache[k]
    ensures Unexpired(Unexpired(cache, now), now) == Unexpired(cache, now)
  {
  }

  /** An entry aged exactly the TTL is kept by the sweep, yet it is no longer served. */
  lemma EntryAgedExactlyTtl(e: CacheEntry, now: int)
    requires now - e.timestamp == CACHE_TTL
    ensures !Expired(e, now) && !Fresh(e, now)
  {
  }

  /** What answered a fetch: a response with `ok` set, one without it, or a rejection. */
  datatype Response = Ok(data: Json) | NotOk(status: int, text: string) | Rejected(reason: string)

  /** What a request's promise settles to. */
  datatype Settled = Resolved(data: Json) | Failed(message: string)

  /** What `request` hands back at once. */
  datatype Requested = CacheHit(data: Json) | Joined(token: Token) | Started(token: Token)

  /** The state an unsettled promise's closure holds on to. */
  datatype Flight = Flight(key: Key, useCache: bool)

  /** The message of the error thrown for a response without `ok`: its body, else `HTTP <status>`. */
  function ErrorMessage(status: int, text: string): (r: string)
    ensures r != ""
    ensures text != "" ==> r == text
    ensures text == "" ==> r == "HTTP " + IntString(status)
  {
    if text != "" then text else "HTTP " + IntString(status)
  }

  /** How a request settles, given what answered its fetch and whether its controller was aborted. */
  function Outcome(response: Response, wasAborted: bool): (s: Settled)
    ensures wasAborted ==> s == Failed(ABORT_ERROR)
    ensures s.Resolved? <==> !wasAborted && response.Ok?
    ensures s.Resolved? ==> s.data == response.data
    ensures !wasAborted && response.NotOk? ==> s == Failed(ErrorMessage(response.status, response.text))
    ensures !wasAborted && response.Rejected? ==> s == Failed(response.reason)
  {
    if wasAborted then Failed(ABORT_ERROR)
    else match response
      case Ok(data) => Resolved(data)
      case NotOk(status, text) => Failed(ErrorMessage(status, text))
      case Rejected(reason) => Failed(reason)
  }

  /** `flags` with every controller in `ts` marked aborted. */
  function MarkAborted(flags: map<Token, bool>, ts: set<Token>): map<Token, bool> {
    map t | t in flags :: flags[t] || t in ts
  }

  /** The controllers filed under the keys `ks`. */
  function ControllersOf(controllers: map<Key, Token>, ks: set<Key>): set<Token> {
    set k | k in ks && k in controllers :: controllers[k]
  }

  // ---------------------------------------------------------------------------
  // the gateway

  class Gateway {
    const baseUrl: string
    /** key -> (data, timestamp) */
    var requestCache: map<Key, CacheEntry>
    /** key -> the in-flight promise filed under it */
    var activeRequests: map<Key, Token>
    /** key -> the controller of the fetch filed under it */
    var abortControllers: map<Key, Token>
    /** every controller created so far, and whether `abort()` has been called on it */
    var aborted: map<Token, bool>
    /** every promise not yet settled, with its key and cache flag */
    var flights: map<Token, Flight>
    var nextToken: Token

    /** Token bookkeeping: every map entry refers to an unsettled promise filed under that key. */
    ghost predicate Valid()
      reads this
    {
      && (forall t :: t in aborted ==> t < nextToken)
      && (forall t :: t in flights ==> t in aborted)
      && (forall k :: k in activeRequests ==> activeRequests[k] in flights && flights[activeRequests[k]].key == k)
      && (forall k :: k in abortControllers ==> abortControllers[k] in flights && flights[abortControllers[k]].key == k)
    }

    /**
     * The two in-flight maps agree key by key. Every operation keeps this, so the branch of
     * `request` that aborts a left-over controller for the key never runs.
     */
    predicate Aligned()
      reads this
    {
      activeRequests == abortControllers
    }

    /** `request` would answer from the cache. */
    predicate ServesFromCache(key: Key, useCache: bool, now: int)
      reads this
    {
      useCache && key in requestCache && Fresh(requestCache[key], now)
    }

    /** The gateway as the module loads: the base URL chosen and all three maps empty. */
    constructor (configuredUrl: string)
      ensures Valid() && Aligned()
      ensures baseUrl == ApiBaseUrl(configuredUrl)
      ensures requestCache == map[] && activeRequests == map[] && abortControllers == map[]
      ensures aborted == map[] && flights == map[]
    {
      baseUrl := ApiBaseUrl(configuredUrl);
      requestCache := map[];
      activeRequests := map[];
      abortControllers := map[];
      aborted := map[];
      flights := map[];
      nextToken := 0;
    }

    /**
     * `request`, up to its first `await`: a fresh cache hit is served and nothing changes; a
     * key already in flight gets the same promise and nothing changes; otherwise a left-over
     * controller for the key is aborted and a new controller and promise are filed under it.
     */
    method Request(c: Call, now: int) returns (r: Requested)
      requires Valid()
      modifies this
      ensures Valid()
      ensures var key := KeyOf(baseUrl, c);
        if old(ServesFromCache(key, c.useCache, now)) then
          r == CacheHit(old(requestCache[key].data)) && unchanged(this)
        else if key in old(activeRequests) then
          r == Joined(old(activeRequests[key])) && unchanged(this)
        else
          && r == Started(old(nextToken))
          && nextToken == old(nextToken) + 1
          && activeRequests == old(activeRequests)[key := r.token]
          && abortControllers == old(abortControllers)[key := r.token]
          && flights == old(flights)[r.token := Flight(key, c.useCache)]
          && aborted == (if key in old(abortControllers)
                         then old(aborted)[old(abortControllers[key]) := true]
                         else old(aborted))[r.token := false]
          && requestCache == old(requestCache)
      ensures old(Aligned()) ==> Aligned()
      ensures old(Aligned()) && r.Started? ==> aborted == old(aborted)[r.token := false]
    {
      var key := KeyOf(baseUrl, c);
      if c.useCache && key in requestCache && Fresh(requestCache[key], now) {
        return CacheHit(requestCache[key].data);
      }
      if key in activeRequests {
        return Joined(activeRequests[key]);
      }
      AbortLeftOver(key);
      var t := Register(key, c.useCache);
      r := Started(t);
    }

    /** The branch of `request` that aborts a controller still filed under `key`. */
    method AbortLeftOver(key: Key)
      requires Valid()
      modifies this`aborted
      ensures Valid()
      ensures aborted == if key in abortControllers then old(aborted)[abortControllers[key] := true] else old(aborted)
    {
      if key in abortControllers {
        aborted := aborted[abortControllers[key] := true];
      }
    }

    /** A new controller and a new promise, filed under `key`. */
    method Register(key: Key, useCache: bool) returns (t: Token)
      requires Valid()
      modifies this
      ensures Valid()
      ensures t == old(nextToken) && nextToken == t + 1
      ensures aborted == old(aborted)[t := false]
      ensures abortControllers == old(abortControllers)[key := t]
      ensures flights == old(flights)[t := Flight(key, useCache)]
      ensures activeRequests == old(activeRequests)[key := t]
      ensures requestCache == old(requestCache)
    {
      t := nextToken;
      assert t !in aborted && t !in flights;
      nextToken := nextToken + 1;
      aborted := aborted[t := false];
      abortControllers := abortControllers[key := t];
      flights := flights[t := Flight(key, useCache)];
      activeRequests := activeRequests[key := t];
    }

    /**
     * The rest of `request` once the fetch of promise `t` is answered: the data is cached only
     * on success with `useCache` set, and, success or not, whatever is filed under the promise's
     * KEY is removed from both in-flight maps, even when it belongs to a newer request.
     */
    method Complete(t: Token, response: Response, now: int) returns (s: Settled)
      requires Valid() && t in flights
      modifies this
      ensures Valid()
      ensures var f := old(flights[t]);
        && s == Outcome(response, old(aborted[t]))
        && requestCache == (if s.Resolved? && f.useCache
                            then old(requestCache)[f.key := CacheEntry(s.data, now)]
                            else old(requestCache))
        && activeRequests == old(activeRequests) - {f.key}
        && abortControllers == old(abortControllers) - {f.key}
        && flights == old(flights) - {t}
        && aborted == old(aborted) && nextToken == old(nextToken)
      ensures old(Aligned()) ==> Aligned()
    {
      var f := flights[t];
      s := Outcome(response, aborted[t]);
      if s.Resolved? && f.useCache {
        requestCache := requestCache[f.key := CacheEntry(s.data, now)];
      }
      activeRequests := activeRequests - {f.key};
      abortControllers := abortControllers - {f.key};
      flights := flights - {t};
    }

    /** `abort(key)`: a key without a controller changes nothing; otherwise only that key is touched. */
    method Abort(key: Key)
      requires Valid()
      modifies this
      ensures Valid()
      ensures if key in old(abortControllers) then
          && aborted == old(aborted)[old(abortControllers[key]) := true]
          && abortControllers == old(abortControllers) - {key}
          && activeRequests == old(activeRequests) - {key}
          && requestCache == old(requestCache) && flights == old(flights) && nextToken == old(nextToken)
        else unchanged(this)
      ensures old(Aligned()) ==> Aligned()
    {
      if key in abortControllers {
        aborted := aborted[abortControllers[key] := true];
        abortControllers := abortControllers - {key};
        activeRequests := activeRequests - {key};
      }
    }

    /** `abortAll`: every registered controller is aborted, both in-flight maps are emptied, the cache is kept. */
    method AbortAll()
      requires Valid()
      modifies this
      ensures Valid() && Aligned()
      ensures aborted == MarkAborted(old(aborted), old(abortControllers).Values)
      ensures abortControllers == map[] && activeRequests == map[]
      ensures requestCache == old(requestCache) && flights == old(flights) && nextToken == old(nextToken)
    {
      AbortEach(abortControllers);
      abortControllers := map[];
      activeRequests := map[];
    }

    /** `controllers.forEach(controller => controller.abort())`. */
    method AbortEach(controllers: map<Key, Token>)
      requires forall k :: k in controllers ==> controllers[k] in aborted
      modifies this`aborted
      ensures aborted == MarkAborted(old(aborted), controllers.Values)
    {
      var pending := controllers.Keys;
      ghost var done: set<Key> := {};
      while pending != {}
        invariant pending + done == controllers.Keys && pending !! done
        invariant aborted.Keys == old(aborted).Keys
        invariant aborted == MarkAborted(old(aborted), ControllersOf(controllers, done))
        decreases |pending|
      {
        var k :| k in pending;
        MarkOneMore(old(aborted), controllers, done, k);
        aborted := aborted[controllers[k] := true];
        pending := pending - {k};
        done := done + {k};
      }
      ControllersOfAllKeys(controllers);
    }

    /** The periodic sweep: every expired entry is deleted and nothing else changes. */
    method Sweep(now: int)
      requires Valid()
      modifies this
      ensures Valid()
      ensures requestCache == Unexpired(old(requestCache), now)
      ensures activeRequests == old(activeRequests) && abortControllers == old(abortControllers)
      ensures aborted == old(aborted) && flights == old(flights) && nextToken == old(nextToken)
      ensures old(Aligned()) ==> Aligned()
    {
      var pending := requestCache.Keys;
      while pending != {}
        invariant pending <= old(requestCache).Keys
        invariant requestCache == map k | k in old(requestCache) && (k in pending || !Expired(old(requestCache)[k], now)) :: old(requestCache)[k]
        invariant activeRequests == old(activeRequests) && abortControllers == old(abortControllers)
        invariant aborted == old(aborted) && flights == old(flights) && nextToken == old(nextToken)
        decreases |pending|
      {
        var k :| k in pending;
        if Expired(requestCache[k], now) {
          requestCache := requestCache - {k};
        }
        pending := pending - {k};
      }
    }

    /**
     * What an endpoint wrapper does after its awaited `request` resolves: the three product
     * mutators drop the `products:list` entry; every other endpoint, and every failed call,
     * leaves the cache alone.
     */
    method Finish(e: Endpoint, s: Settled)
      modifies this`requestCache
      ensures requestCache == if InvalidatesProducts(e) && s.Resolved? then old(requestCache) - {PRODUCTS_LIST_KEY}
                              else old(requestCache)
    {
      if InvalidatesProducts(e) && s.Resolved? {
        requestCache := requestCache - {PRODUCTS_LIST_KEY};
      }
    }
  }

  /** One more key's controller marked aborted, as a step of `abortAll`'s loop. */
  lemma MarkOneMore(flags: map<Token, bool>, controllers: map<Key, Token>, done: set<Key>, k: Key)
    requires k in controllers && controllers[k] in flags
    ensures MarkAborted(flags, ControllersOf(controllers, done + {k}))
         == MarkAborted(flags, ControllersOf(controllers, done))[controllers[k] := true]
  {
    assert ControllersOf(controllers, done + {k}) == ControllersOf(controllers, done) + {controllers[k]};
  }

  lemma ControllersOfAllKeys(controllers: map<Key, Token>)
    ensures ControllersOf(controllers, controllers.Keys) == controllers.Values
  {
    forall t | t in controllers.Values ensures t in ControllersOf(controllers, controllers.Keys) {
      var k :| k in controllers && controllers[k] == t;
    }
  }

  // ---------------------------------------------------------------------------
  // the endpoint wrappers

  /** The gateway's endpoints; a body is the JSON text of `JSON.stringify(options.body)`. */
  datatype Endpoint =
    | GetOrCreateUser(body: Json)
    | GetProducts
    | AddProduct(body: Json)
    | DeleteProduct(productId: string, body: Json)
    | UpdateProduct(productId: string, body: Json)
    | GetAllOrders
    | GetUserOrders(userId: int)
    | CreateOrder(body: Json)
    | UpdateOrderStatus(orderId: string, body: Json)
    | GetProductRequests
    | GetUserProductRequests(userId: int)
    | ProcessProductRequest(requestId: string, body: Json)

  /** The `request` call each wrapper makes. */
  function EndpointCall(e: Endpoint): Call {
    match e
    case GetOrCreateUser(body) => Call("/users", "POST", body, false, "")
    case GetProducts => Call("/products", "", NO_BODY, true, PRODUCTS_LIST_KEY)
    case AddProduct(body) => Call("/products", "POST", body, false, "")
    case DeleteProduct(id, body) => Call("/products/" + id, "DELETE", body, false, "")
    case UpdateProduct(id, body) => Call("/products/" + id, "PATCH", body, false, "")
    case GetAllOrders => Call("/orders", "", NO_BODY, false, "")
    case GetUserOrders(userId) =>
      Call("/orders/user/" + IntString(userId), "", NO_BODY, true, "orders:user:" + IntString(userId))
    case CreateOrder(body) => Call("/orders", "POST", body, false, "")
    case UpdateOrderStatus(id, body) => Call("/orders/" + id, "PATCH", body, false, "")
    case GetProductRequests => Call("/product-requests", "", NO_BODY, false, "")
    case GetUserProductRequests(userId) =>
      Call("/product-requests/user/" + IntString(userId), "", NO_BODY, true, "product-requests:user:" + IntString(userId))
    case ProcessProductRequest(id, body) => Call("/product-requests/" + id, "PATCH", body, false, "")
  }

  /** `addProduct`, `deleteProduct` and `updateProduct`: the calls that invalidate the product list. */
  predicate InvalidatesProducts(e: Endpoint) {
    e.AddProduct? || e.DeleteProduct? || e.UpdateProduct?
  }

  /**
   * Only the three read endpoints with an explicit key use the cache; every mutator goes to the
   * server each time and is filed under a computed key.
   */
  lemma CachedEndpoints(e: Endpoint)
    ensures EndpointCall(e).useCache <==> e.GetProducts? || e.GetUserOrders? || e.GetUserProductRequests?
    ensures EndpointCall(e).useCache ==> EndpointCall(e).cacheKey != ""
    ensures InvalidatesProducts(e) ==> !EndpointCall(e).useCache && EndpointCall(e).cacheKey == ""
  {
  }

  /**
   * Invalidation removes the product-list entry and no other; in particular a user's cached
   * orders survive it, and no mutator's own key is the product-list key.
   */
  lemma InvalidationSparesOtherEntries(baseUrl: string, e: Endpoint, userId: int)
    ensures "orders:user:" + IntString(userId) != PRODUCTS_LIST_KEY
    ensures "product-requests:user:" + IntString(userId) != PRODUCTS_LIST_KEY
    ensures e != GetProducts ==> KeyOf(baseUrl, EndpointCall(e)) != PRODUCTS_LIST_KEY
  {
    assert ("orders:user:" + IntString(userId))[0] == 'o';
    assert ("product-requests:user:" + IntString(userId))[1] == 'r';
    var c := EndpointCall(e);
    if c.cacheKey == "" {
      ComputedKeyIsNotProductsList(baseUrl, c);
    } else if e.GetUserOrders? {
      assert c.cacheKey[0] == 'o';
    } else if e.GetUserProductRequests? {
      assert c.cacheKey[1] == 'r';
    }
  }

  // ---------------------------------------------------------------------------
  // `updateProduct`'s quantity coercion

  /** A JavaScript value as far as a field of the update payload can hold one. */
  datatype JsValue = Undefined | Null | Bool(b: bool) | Num(n: JsNumber) | Str(s: string)

  /** `Number(v)`. */
  function ToNumber(v: JsValue): JsNumber {
    match v
    case Undefined => NaN
    case Null => Finite(0)
    case Bool(b) => Finite(if b then 1 else 0)
    case Num(n) => n
    case Str(s) => StringToNumber(s)
  }

  /** A `quantity` that is present but not a number is replaced by `Number(quantity)`. */
  function CoerceQuantity(q: JsValue): (r: JsValue)
    ensures r.Undefined? <==> q.Undefined?
    ensures !q.Undefined? ==> r.Num? && r.n == ToNumber(q)
    ensures q.Num? ==> r == q
  {
    if q.Undefined? || q.Num? then q else Num(ToNumber(q))
  }

  /** Coercing twice is coercing once. */
  lemma CoerceQuantityIdempotent(q: JsValue)
    ensures CoerceQuantity(CoerceQuantity(q)) == CoerceQuantity(q)
  {
  }

  /** A quantity typed as the text of an integer, padded or not, arrives as that integer. */
  lemma CoerceQuantityOfNumeral(i: int, before: string, after: string)
    requires IsBlank(before) && IsBlank(after)
    ensures CoerceQuantity(Str(before + IntString(i) + after)) == Num(Finite(i))
  {
    StringToNumberReadsNumeral(i, before, after);
  }

  // ---------------------------------------------------------------------------
  // runs of several events

  /** Two identical requests while the first is in flight share one promise. */
  method DeduplicatedRun(c: Call, now: int) returns (first: Requested, second: Requested)
    ensures first.Started? && second == Joined(first.token)
  {
    var g := new Gateway("");
    first := g.Request(c, now);
    second := g.Request(c, now);
  }

  /**
   * A cached call answered with `data` is served from the cache for just under the TTL; at
   * exactly the TTL it goes to the server again.
   */
  method CachedRun(c: Call, data: Json, now: int) returns (settled: Settled, hit: Requested, miss: Requested)
    requires c.useCache
    ensures settled == Resolved(data)
    ensures hit == CacheHit(data)
    ensures miss.Started?
  {
    var g := new Gateway("");
    var r := g.Request(c, now);
    settled := g.Complete(r.token, Ok(data), now);
    hit := g.Request(c, now + CACHE_TTL - 1);
    miss := g.Request(c, now + CACHE_TTL);
  }

  /**
   * Abort a request, start it again, then let the aborted fetch settle: its `finally` removes the
   * NEW request's entries, so a third identical call is not deduplicated and two fetches for one
   * key are in flight together.
   */
  method StaleCompletionRun(c: Call, response: Response, now: int)
    returns (settled: Settled, second: Requested, third: Requested, unsettled: set<Token>)
    ensures settled == Failed(ABORT_ERROR)
    ensures second.Started? && third.Started? && second.token != third.token
    ensures second.token in unsettled && third.token in unsettled
  {
    var g := new Gateway("");
    var key := KeyOf(g.baseUrl, c);
    var first := g.Request(c, now);
    g.Abort(key);
    second := g.Request(c, now);
    settled := g.Complete(first.token, response, now);
    third := g.Request(c, now);
    unsettled := g.flights.Keys;
  }
}
