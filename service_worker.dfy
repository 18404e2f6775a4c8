/**
 * service-worker.js: the fetch routing (network only for the API and for anything but GET,
 * cache first for the listed CDN hosts, stale-while-revalidate for the worker's own origin)
 * and the cache effects of install, activate and the two caching strategies.
 */
module ServiceWorker {
  import opened Wrappers
  import opened JsStrings
  import opened CacheApi

  const CacheName := "gemini-gpt-v2"
  const CdnCache := "gemini-gpt-cdn-v1"
  const ApiBase := "/api"

  /** The app shell cached on install. */
  const PrecacheUrls: seq<string> := ["./", "./index.html", "./manifest.json"]

  /** Host-name fragments of the libraries, fonts and icons served cache first. */
  const CdnHosts: seq<string> := [
    "cdn.tailwindcss.com", "esm.sh", "unpkg.com", "cdnjs.cloudflare.com",
    "cdn.sheetjs.com", "aistudiocdn.com", "gstatic.com", "fonts.googleapis.com"]

  datatype Strategy = NetworkOnly | CacheFirst | StaleWhileRevalidate | NotHandled

  predicate IsCdnHost(hostname: string) {
    exists i :: 0 <= i < |CdnHosts| && Includes(hostname, CdnHosts[i])
  }

  /** The strategy of the fetch listener for a request, `selfOrigin` being the worker's own
      origin. */
  function Route(req: Request, selfOrigin: string): Strategy {
    if StartsWith(req.url.pathname, ApiBase) || req.httpMethod != "GET" then NetworkOnly
    else if IsCdnHost(req.url.hostname) then CacheFirst
    else if req.url.origin == selfOrigin then StaleWhileRevalidate
    else NotHandled
  }

  predicate Intercepts(s: Strategy) {
    s == CacheFirst || s == StaleWhileRevalidate
  }

  /** The API and every method but GET are left to the browser, whatever the host; this rule
      is checked before any other. */
  lemma NeverInterceptedFirst(req: Request, selfOrigin: string)
    ensures StartsWith(req.url.pathname, ApiBase) || req.httpMethod != "GET" <==>
      Route(req, selfOrigin) == NetworkOnly
    ensures Intercepts(Route(req, selfOrigin)) ==>
      req.httpMethod == "GET" && !StartsWith(req.url.pathname, ApiBase)
  {
  }

  /** A CDN host is served cache first even on the worker's own origin, and the strategy for
      it does not depend on the origin. */
  lemma CdnBeforeOrigin(req: Request, o1: string, o2: string)
    requires req.httpMethod == "GET" && !StartsWith(req.url.pathname, ApiBase)
    requires IsCdnHost(req.url.hostname)
    ensures Route(req, o1) == CacheFirst && Route(req, o2) == CacheFirst
  {
  }

  /** A GET to another origin on a host that is not a listed CDN is not intercepted; a
      same-origin one outside the API is stale-while-revalidate. */
  lemma OriginRule(req: Request, selfOrigin: string)
    requires req.httpMethod == "GET" && !StartsWith(req.url.pathname, ApiBase)
    requires !IsCdnHost(req.url.hostname)
    ensures req.url.origin != selfOrigin ==> Route(req, selfOrigin) == NotHandled
    ensures req.url.origin == selfOrigin ==> Route(req, selfOrigin) == StaleWhileRevalidate
  {
  }

  /** Sub-domains of a listed host match, because the test is a substring test. */
  lemma SubdomainIsCdn(prefix: string)
    ensures IsCdnHost(prefix + "gstatic.com")
  {
    var h := prefix + "gstatic.com";
    assert CdnHosts[6] == "gstatic.com";
    assert h[|prefix|..|prefix| + |CdnHosts[6]|] == CdnHosts[6];
    assert OccursAt(h, CdnHosts[6], |prefix|);
  }

  /** The response of the stale-while-revalidate strategy: the cached one if any, otherwise
      the network's; with neither, a network error. */
  function CachedOrNetwork(cached: Option<Response>, network: FetchResult): (out: FetchOutcome)
    ensures cached.Some? ==> out == Responded(cached.value)
    ensures cached.None? && network.Fetched? ==> out == Responded(network.response)
    ensures cached.None? && network.FetchFailed? ==> out == RespondedNetworkError
  {
    match cached
    case Some(r) => Responded(r)
    case None => if network.Fetched? then Responded(network.response) else RespondedNetworkError
  }

  /** The stale-while-revalidate answer in terms of the storage: a network error exactly when
      the fetch failed and no cache holds the request; the earliest cache holding the request
      answers; otherwise the network does. */
  lemma CachedOrNetworkSpec(names: seq<string>, stores: Stores, req: Request, network: FetchResult)
    ensures CachedOrNetwork(FirstMatch(names, stores, req), network) == RespondedNetworkError <==>
      network.FetchFailed? && (req.httpMethod != "GET" || forall i :: 0 <= i < |names| ==> !Holds(stores, names[i], Key(req)))
    ensures (req.httpMethod != "GET" || forall i :: 0 <= i < |names| ==> !Holds(stores, names[i], Key(req))) && network.Fetched? ==>
      CachedOrNetwork(FirstMatch(names, stores, req), network) == Responded(network.response)
    ensures req.httpMethod == "GET" && (exists i :: 0 <= i < |names| && Holds(stores, names[i], Key(req))) ==>
      exists i :: 0 <= i < |names| && Holds(stores, names[i], Key(req))
        && CachedOrNetwork(FirstMatch(names, stores, req), network) == Responded(stores[names[i]][Key(req)])
        && forall j :: 0 <= j < i ==> !Holds(stores, names[j], Key(req))
  {
    FirstMatchSpec(names, stores, req);
  }

  /** The synthetic answer when a CDN fetch fails. */
  const OfflineResponse := Response(408, "Offline", "")

  /** The cache-first strategy on the CDN cache. */
  method CacheFirstFetch(c: CacheStorage, req: Request, network: FetchResult) returns (out: FetchOutcome)
    requires c.Valid()
    modifies c
    ensures c.Valid()
    ensures c.names == if CdnCache in old(c.stores) then old(c.names) else old(c.names) + [CdnCache]
    ensures var hit := Lookup(old(c.stores), CdnCache, req);
      && (hit.Some? ==> out == Responded(hit.value) && c.stores == Opened(old(c.stores), CdnCache))
      && (hit.None? && network.Fetched? ==>
            out == Responded(network.response)
            && c.stores == if network.response.status == 200
                           then Stored(Opened(old(c.stores), CdnCache), CdnCache, req, network.response)
                           else Opened(old(c.stores), CdnCache))
      && (hit.None? && network.FetchFailed? ==>
            out == Responded(OfflineResponse) && c.stores == Opened(old(c.stores), CdnCache))
  {
    c.Open(CdnCache);
    var hit := Lookup(c.stores, CdnCache, req);
    if hit.Some? {
      return Responded(hit.value);
    }
    match network
    case FetchFailed =>
      out := Responded(OfflineResponse);
    case Fetched(response) =>
      if response.status == 200 {
        c.Put(CdnCache, req, response);
      }
      out := Responded(response);
  }

  /** The stale-while-revalidate strategy: the network is always asked, and a status-200
      answer is stored in `CacheName` for next time. */
  method StaleWhileRevalidateFetch(c: CacheStorage, req: Request, network: FetchResult) returns (out: FetchOutcome)
    requires c.Valid()
    modifies c
    ensures c.Valid()
    ensures out == CachedOrNetwork(FirstMatch(old(c.names), old(c.stores), req), network)
    ensures network.Fetched? && network.response.status == 200 ==>
      c.names == (if CacheName in old(c.stores) then old(c.names) else old(c.names) + [CacheName])
      && c.stores == Stored(Opened(old(c.stores), CacheName), CacheName, req, network.response)
    ensures !(network.Fetched? && network.response.status == 200) ==>
      c.names == old(c.names) && c.stores == old(c.stores)
  {
    var cached := FirstMatch(c.names, c.stores, req);
    if network.Fetched? && network.response.status == 200 {
      c.Open(CacheName);
      c.Put(CacheName, req, network.response);
    }
    out := CachedOrNetwork(cached, network);
  }

  /** The fetch listener. */
  method HandleFetch(c: CacheStorage, req: Request, selfOrigin: string, network: FetchResult)
    returns (out: FetchOutcome)
    requires c.Valid()
    modifies c
    ensures c.Valid()
    ensures out == NotIntercepted <==> !Intercepts(Route(req, selfOrigin))
    ensures !Intercepts(Route(req, selfOrigin)) ==> c.names == old(c.names) && c.stores == old(c.stores)
    ensures Route(req, selfOrigin) == StaleWhileRevalidate ==>
      out == CachedOrNetwork(FirstMatch(old(c.names), old(c.stores), req), network)
    ensures Route(req, selfOrigin) == CacheFirst && Lookup(old(c.stores), CdnCache, req).Some? ==>
      out == Responded(Lookup(old(c.stores), CdnCache, req).value)
    ensures Route(req, selfOrigin) == CacheFirst && Lookup(old(c.stores), CdnCache, req).None? ==>
      out == Responded(if network.Fetched? then network.response else OfflineResponse)
    ensures Route(req, selfOrigin) == CacheFirst ==>
      c.names == (if CdnCache in old(c.stores) then old(c.names) else old(c.names) + [CdnCache])
      && c.stores == if Lookup(old(c.stores), CdnCache, req).None? && network.Fetched? && network.response.status == 200
                     then Stored(Opened(old(c.stores), CdnCache), CdnCache, req, network.response)
                     else Opened(old(c.stores), CdnCache)
    ensures Route(req, selfOrigin) == StaleWhileRevalidate && network.Fetched? && network.response.status == 200 ==>
      c.names == (if CacheName in old(c.stores) then old(c.names) else old(c.names) + [CacheName])
      && c.stores == Stored(Opened(old(c.stores), CacheName), CacheName, req, network.response)
    ensures Route(req, selfOrigin) == StaleWhileRevalidate && !(network.Fetched? && network.response.status == 200) ==>
      c.names == old(c.names) && c.stores == old(c.stores)
    ensures forall n :: n in c.stores && n != CacheName && n != CdnCache ==> n in old(c.stores) && c.stores[n] == old(c.stores)[n]
  {
    var strategy := Route(req, selfOrigin);
    if strategy == CacheFirst {
      out := CacheFirstFetch(c, req, network);
    } else if strategy == StaleWhileRevalidate {
      out := StaleWhileRevalidateFetch(c, req, network);
    } else {
      out := NotIntercepted;
    }
  }

  /** The install handler: open `CacheName` and add the app shell, given what fetching each
      of its URLs gives; installation succeeds exactly when every fetch gives a response
      `cache.addAll` accepts. */
  method Install(c: CacheStorage, selfOrigin: string, results: seq<FetchResult>) returns (installed: bool)
    requires c.Valid() && |results| == |PrecacheUrls|
    modifies c
    ensures c.Valid()
    ensures c.names == if CacheName in old(c.stores) then old(c.names) else old(c.names) + [CacheName]
    ensures installed <==> AllAddable(results)
    ensures installed ==> c.stores == Opened(old(c.stores), CacheName)[CacheName :=
      WithEntries(Opened(old(c.stores), CacheName)[CacheName], PrecacheKeys(selfOrigin), Responses(results))]
    ensures !installed ==> c.stores == Opened(old(c.stores), CacheName)
  {
    c.Open(CacheName);
    PrecacheKeysDistinct(selfOrigin);
    installed := c.AddAll(CacheName, PrecacheKeys(selfOrigin), results);
  }

  /** The URLs the app shell list stands for. */
  function PrecacheKeys(selfOrigin: string): seq<string> {
    ResolveAll(selfOrigin, PrecacheUrls)
  }

  /** Each precache entry "./path" stands for the origin, a slash and the path. */
  lemma PrecacheKeyAt(selfOrigin: string, i: nat, path: string)
    requires i < |PrecacheUrls| && PrecacheUrls[i] == "./" + path
    ensures PrecacheKeys(selfOrigin)[i] == selfOrigin + ("/" + path)
  {
    ResolveDotSlash(selfOrigin, PrecacheUrls[i], path);
  }

  /** The app shell is the root page, index.html and manifest.json of the worker's origin. */
  lemma PrecacheKeysValue(selfOrigin: string)
    ensures PrecacheKeys(selfOrigin) == [selfOrigin + "/", selfOrigin + "/index.html", selfOrigin + "/manifest.json"]
  {
    PrecacheRoot(selfOrigin);
    PrecacheIndex(selfOrigin);
    PrecacheManifest(selfOrigin);
  }

  lemma PrecacheRoot(selfOrigin: string)
    ensures PrecacheKeys(selfOrigin)[0] == selfOrigin + "/"
  {
    PrecacheKeyAt(selfOrigin, 0, "");
    assert "/" + "" == "/";
  }

  lemma PrecacheIndex(selfOrigin: string)
    ensures PrecacheKeys(selfOrigin)[1] == selfOrigin + "/index.html"
  {
    PrecacheKeyAt(selfOrigin, 1, "index.html");
    assert "/" + "index.html" == "/index.html";
  }

  lemma PrecacheManifest(selfOrigin: string)
    ensures PrecacheKeys(selfOrigin)[2] == selfOrigin + "/manifest.json"
  {
    PrecacheKeyAt(selfOrigin, 2, "manifest.json");
    assert "/" + "manifest.json" == "/manifest.json";
  }

  /** The app shell is the root page, index.html and manifest.json, all distinct. */
  lemma PrecacheKeysDistinct(selfOrigin: string)
    ensures PrecacheKeys(selfOrigin) == [selfOrigin + "/", selfOrigin + "/index.html", selfOrigin + "/manifest.json"]
    ensures Distinct(PrecacheKeys(selfOrigin))
  {
    PrecacheKeysValue(selfOrigin);
    DistinctThree(selfOrigin + "/", selfOrigin + "/index.html", selfOrigin + "/manifest.json");
  }

  lemma ResolveDotSlash(origin: string, ref: string, path: string)
    requires ref == "./" + path
    ensures Resolve(origin, ref) == origin + "/" + path
    ensures origin + "/" + path == origin + ("/" + path)
  {
    assert ref[..2] == "./" && ref[2..] == path;
  }

  lemma DistinctThree(a: string, b: string, c: string)
    requires |a| < |b| < |c|
    ensures Distinct([a, b, c])
  {
    var s := [a, b, c];
    assert Distinct([c]) by { assert [c][1..] == []; }
    assert Distinct([b, c]) by { assert [b, c][1..] == [c]; }
    assert s[1..] == [b, c];
  }

  /** The activate handler: every cache is deleted except `CacheName` and `CdnCache`, which
      stay as they were. */
  method Activate(c: CacheStorage)
    requires c.Valid()
    modifies c
    ensures c.Valid()
    ensures forall n :: n in c.stores <==> n in old(c.stores) && (n == CacheName || n == CdnCache)
    ensures forall n :: n in c.stores ==> c.stores[n] == old(c.stores)[n]
    ensures c.names == KeptOnly(old(c.names), {CacheName, CdnCache})
  {
    ghost var before := c.stores;
    c.DeleteAllExcept({CacheName, CdnCache});
    forall n
      ensures n in c.stores <==> n in before && (n == CacheName || n == CdnCache)
    {
      assert n in {CacheName, CdnCache} <==> n == CacheName || n == CdnCache;
    }
  }
}
