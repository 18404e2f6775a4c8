/**
 * sw.js, the older worker: the API is left to the network, navigations are network first
 * with the caches as fallback, and everything else (any method, any origin) is
 * stale-while-revalidate on `CacheName`.
 */
module Sw {
  import opened Wrappers
  import opened JsStrings
  import opened CacheApi
  import ServiceWorker

  const CacheName := "gemini-gpt-v1"
  const ApiBase := "/api"
  const PrecacheUrls: seq<string> := ["/", "/index.html", "/manifest.json"]

  datatype Strategy = NetworkOnly | NetworkFirst | StaleWhileRevalidate

  function Route(req: Request): Strategy {
    if StartsWith(req.url.pathname, ApiBase) then NetworkOnly
    else if req.mode == "navigate" then NetworkFirst
    else StaleWhileRevalidate
  }

  /** Only the API path is left to the browser: unlike service-worker.js there is no method
      test, so a request with another method outside the API is intercepted. */
  lemma OnlyApiBypasses(req: Request)
    ensures Route(req) == NetworkOnly <==> StartsWith(req.url.pathname, ApiBase)
    ensures !StartsWith(req.url.pathname, ApiBase) && req.httpMethod != "GET" ==>
      Route(req) != NetworkOnly
        && ServiceWorker.Route(req, req.url.origin) == ServiceWorker.NetworkOnly
  {
  }

  /** The network-first strategy for navigations: the network's answer whatever its status;
      the caches only when the fetch fails. */
  function NetworkFirstOutcome(names: seq<string>, stores: Stores, req: Request, network: FetchResult): FetchOutcome {
    match network
    case Fetched(response) => Responded(response)
    case FetchFailed =>
      match FirstMatch(names, stores, req)
      case Some(cached) => Responded(cached)
      case None => RespondedNetworkError
  }

  /** A navigation that reaches the network never looks at the caches: two storages give the
      same answer. */
  lemma NetworkFirstIgnoresCache(n1: seq<string>, s1: Stores, n2: seq<string>, s2: Stores, req: Request, r: Response)
    ensures NetworkFirstOutcome(n1, s1, req, Fetched(r)) == NetworkFirstOutcome(n2, s2, req, Fetched(r)) == Responded(r)
  {
  }

  /** When the fetch fails, the answer is the first cached response for the request, and a
      network error when no cache holds it. */
  lemma NetworkFirstFallback(names: seq<string>, stores: Stores, req: Request)
    ensures NetworkFirstOutcome(names, stores, req, FetchFailed) == RespondedNetworkError <==>
      req.httpMethod != "GET" || forall i :: 0 <= i < |names| ==> !Holds(stores, names[i], Key(req))
    ensures NetworkFirstOutcome(names, stores, req, FetchFailed).Responded? ==>
      exists i :: 0 <= i < |names| && Holds(stores, names[i], Key(req))
        && NetworkFirstOutcome(names, stores, req, FetchFailed).response == stores[names[i]][Key(req)]
        && forall j :: 0 <= j < i ==> !Holds(stores, names[j], Key(req))
  {
    FirstMatchSpec(names, stores, req);
  }

  /** Stale-while-revalidate: `CacheName` is opened whenever the network answers, the answer
      is stored there only with status 200 (and, by `cache.put`, only for GET). */
  method StaleWhileRevalidateFetch(c: CacheStorage, req: Request, network: FetchResult) returns (out: FetchOutcome)
    requires c.Valid()
    modifies c
    ensures c.Valid()
    ensures out == ServiceWorker.CachedOrNetwork(FirstMatch(old(c.names), old(c.stores), req), network)
    ensures network.Fetched? ==>
      c.names == (if CacheName in old(c.stores) then old(c.names) else old(c.names) + [CacheName])
      && c.stores == if network.response.status == 200
                     then Stored(Opened(old(c.stores), CacheName), CacheName, req, network.response)
                     else Opened(old(c.stores), CacheName)
    ensures network.FetchFailed? ==> c.names == old(c.names) && c.stores == old(c.stores)
  {
    var cached := FirstMatch(c.names, c.stores, req);
    if network.Fetched? {
      c.Open(CacheName);
      if network.response.status == 200 {
        c.Put(CacheName, req, network.response);
      }
    }
    out := ServiceWorker.CachedOrNetwork(cached, network);
  }

  /** The fetch listener. */
  method HandleFetch(c: CacheStorage, req: Request, network: FetchResult) returns (out: FetchOutcome)
    requires c.Valid()
    modifies c
    ensures c.Valid()
    ensures out == NotIntercepted <==> Route(req) == NetworkOnly
    ensures Route(req) != StaleWhileRevalidate ==> c.names == old(c.names) && c.stores == old(c.stores)
    ensures Route(req) == NetworkFirst ==> out == NetworkFirstOutcome(old(c.names), old(c.stores), req, network)
    ensures Route(req) == StaleWhileRevalidate ==>
      out == ServiceWorker.CachedOrNetwork(FirstMatch(old(c.names), old(c.stores), req), network)
    ensures Route(req) == StaleWhileRevalidate && network.Fetched? ==>
      c.names == (if CacheName in old(c.stores) then old(c.names) else old(c.names) + [CacheName])
      && c.stores == if network.response.status == 200
                     then Stored(Opened(old(c.stores), CacheName), CacheName, req, network.response)
                     else Opened(old(c.stores), CacheName)
    ensures Route(req) == StaleWhileRevalidate && network.FetchFailed? ==>
      c.names == old(c.names) && c.stores == old(c.stores)
    ensures forall n :: n in c.stores && n != CacheName ==> n in old(c.stores) && c.stores[n] == old(c.stores)[n]
  {
    match Route(req)
    case NetworkOnly =>
      out := NotIntercepted;
    case NetworkFirst =>
      out := NetworkFirstOutcome(c.names, c.stores, req, network);
    case StaleWhileRevalidate =>
      out := StaleWhileRevalidateFetch(c, req, network);
  }

  lemma ResolveSlash(origin: string, ref: string)
    requires |ref| > 0 && ref[0] == '/'
    ensures Resolve(origin, ref) == origin + ref
  {
    assert ref[..1] == "/";
    assert !StartsWith(ref, "./");
  }

  /** Both workers precache the same three URLs, written "./x" in one and "/x" in the other. */
  lemma SameAppShell(selfOrigin: string)
    ensures ResolveAll(selfOrigin, PrecacheUrls) == ServiceWorker.PrecacheKeys(selfOrigin)
    ensures Distinct(ResolveAll(selfOrigin, PrecacheUrls))
  {
    ServiceWorker.PrecacheKeysDistinct(selfOrigin);
    var keys := ResolveAll(selfOrigin, PrecacheUrls);
    ResolveSlash(selfOrigin, "/");
    ResolveSlash(selfOrigin, "/index.html");
    ResolveSlash(selfOrigin, "/manifest.json");
    assert keys == [keys[0], keys[1], keys[2]];
  }

  /** The install handler: open `CacheName` and add the app shell; it succeeds exactly when
      every fetch gives a response `cache.addAll` accepts. */
  method Install(c: CacheStorage, selfOrigin: string, results: seq<FetchResult>) returns (installed: bool)
    requires c.Valid() && |results| == |PrecacheUrls|
    modifies c
    ensures c.Valid()
    ensures c.names == if CacheName in old(c.stores) then old(c.names) else old(c.names) + [CacheName]
    ensures installed <==> AllAddable(results)
    ensures installed ==> c.stores == Opened(old(c.stores), CacheName)[CacheName :=
      WithEntries(Opened(old(c.stores), CacheName)[CacheName], ResolveAll(selfOrigin, PrecacheUrls), Responses(results))]
    ensures !installed ==> c.stores == Opened(old(c.stores), CacheName)
  {
    c.Open(CacheName);
    SameAppShell(selfOrigin);
    installed := c.AddAll(CacheName, ResolveAll(selfOrigin, PrecacheUrls), results);
  }

  /** The activate handler: every cache but `CacheName` is deleted, including the caches of
      service-worker.js. */
  method Activate(c: CacheStorage)
    requires c.Valid()
    modifies c
    ensures c.Valid()
    ensures forall n :: n in c.stores <==> n in old(c.stores) && n == CacheName
    ensures forall n :: n in c.stores ==> c.stores[n] == old(c.stores)[n]
    ensures c.names == KeptOnly(old(c.names), {CacheName})
  {
    c.DeleteAllExcept({CacheName});
  }
}
