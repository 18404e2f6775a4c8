/**
 * The part of the Service Worker Cache API the two workers use: a `CacheStorage` of named
 * caches, each a map from a request's URL to a stored response, together with
 * `caches.open`, `caches.match`, `caches.delete`, `caches.keys`, `cache.match`, `cache.put`
 * and `cache.addAll`.  The network is not modelled: each fetch's result is an input.
 */
module CacheApi {
  import opened Wrappers
  import opened JsStrings

  datatype Response = Response(status: int, statusText: string, body: string)

  /** What `fetch` gives: a response (of any status) or a rejection (no network). */
  datatype FetchResult = Fetched(response: Response) | FetchFailed

  datatype Url = Url(href: string, origin: string, hostname: string, pathname: string)
  datatype Request = Request(url: Url, httpMethod: string, mode: string)

  /** What a `fetch` listener does with the event: nothing (the browser fetches the request
      itself), a response, or `respondWith` of a promise resolving to `undefined`, which the
      page sees as a network error. */
  datatype FetchOutcome = NotIntercepted | Responded(response: Response) | RespondedNetworkError

  type Store = map<string, Response>
  type Stores = map<string, Store>

  /** Requests are stored and looked up under their URL. */
  function Key(req: Request): string {
    req.url.href
  }

  /** `response.ok` */
  predicate IsOk(r: Response) {
    200 <= r.status <= 299
  }

  predicate Distinct(s: seq<string>) {
    |s| == 0 || (s[0] !in s[1..] && Distinct(s[1..]))
  }

  /** The URL a precache entry stands for, for a worker script served from the root of
      `origin`: "./x" and "/x" both name `origin` + "/x". */
  function Resolve(origin: string, ref: string): string {
    if StartsWith(ref, "./") then origin + "/" + ref[2..]
    else if StartsWith(ref, "/") then origin + ref
    else origin + "/" + ref
  }

  /** The URLs a list of precache entries stands for, in order. */
  function ResolveAll(origin: string, refs: seq<string>): (keys: seq<string>)
    ensures |keys| == |refs| && forall i :: 0 <= i < |refs| ==> keys[i] == Resolve(origin, refs[i])
  {
    seq(|refs|, i requires 0 <= i < |refs| => Resolve(origin, refs[i]))
  }


  // ----- the storage as values -----

  /** `caches.open(name)` creates an empty cache when there is none of that name. */
  function Opened(stores: Stores, name: string): (r: Stores)
    ensures name in r && r.Keys == stores.Keys + {name}
    ensures forall n :: n in stores ==> r[n] == stores[n]
    ensures name !in stores ==> r[name] == map[]
  {
    if name in stores then stores else stores[name := map[]]
  }

  /** `cache.put(req, resp)`: a GET request's response replaces the one under its URL; any
      other method is refused and the cache stays as it was. */
  function Stored(stores: Stores, name: string, req: Request, resp: Response): (r: Stores)
    requires name in stores
    ensures r.Keys == stores.Keys
    ensures forall n :: n in stores && n != name ==> r[n] == stores[n]
    ensures req.httpMethod == "GET" ==> r[name].Keys == stores[name].Keys + {Key(req)} && r[name][Key(req)] == resp
    ensures req.httpMethod == "GET" ==> forall k :: k in stores[name] && k != Key(req) ==> r[name][k] == stores[name][k]
    ensures req.httpMethod != "GET" ==> r == stores
  {
    if req.httpMethod == "GET" then stores[name := stores[name][Key(req) := resp]] else stores
  }

  /** `cache.match(req)` on the cache `name`: only GET requests match. */
  function Lookup(stores: Stores, name: string, req: Request): (r: Option<Response>)
    ensures r.Some? <==> req.httpMethod == "GET" && name in stores && Key(req) in stores[name]
    ensures r.Some? ==> r.value == stores[name][Key(req)]
  {
    if req.httpMethod == "GET" && name in stores && Key(req) in stores[name] then Some(stores[name][Key(req)])
    else None
  }

  /** `cache.put` then `cache.match`: a GET request finds what was put for it; a request with
      another URL, or any request on another cache, finds what it found before. */
  lemma LookupStored(stores: Stores, name: string, req: Request, resp: Response, other: string, q: Request)
    requires name in stores && req.httpMethod == "GET"
    ensures Lookup(Stored(stores, name, req, resp), name, req) == Some(resp)
    ensures Key(q) != Key(req) ==> Lookup(Stored(stores, name, req, resp), name, q) == Lookup(stores, name, q)
    ensures other != name ==> Lookup(Stored(stores, name, req, resp), other, q) == Lookup(stores, other, q)
  {
  }

  /** A request other than GET is never stored: `cache.put` leaves every lookup as it was. */
  lemma PutIgnoresOtherMethods(stores: Stores, name: string, req: Request, resp: Response, other: string, q: Request)
    requires name in stores && req.httpMethod != "GET"
    ensures Lookup(Stored(stores, name, req, resp), other, q) == Lookup(stores, other, q)
    ensures Lookup(Stored(stores, name, req, resp), name, req).None?
  {
  }

  predicate Holds(stores: Stores, name: string, key: string) {
    name in stores && key in stores[name]
  }

  /** `caches.match(req)`: the caches are searched in the order they were created and the
      first one holding the request answers; only GET requests match. */
  function FirstMatch(names: seq<string>, stores: Stores, req: Request): Option<Response> {
    if req.httpMethod != "GET" || |names| == 0 then None
    else if Holds(stores, names[0], Key(req)) then Some(stores[names[0]][Key(req)])
    else FirstMatch(names[1..], stores, req)
  }

  /** `storage.match` answers exactly when some cache holds the request, and then with the
      response of the earliest such cache. */
  lemma {:induction false} FirstMatchSpec(names: seq<string>, stores: Stores, req: Request)
    decreases |names|
    ensures FirstMatch(names, stores, req).Some? <==>
      req.httpMethod == "GET" && exists i :: 0 <= i < |names| && Holds(stores, names[i], Key(req))
    ensures FirstMatch(names, stores, req).Some? ==>
      exists i :: 0 <= i < |names| && Holds(stores, names[i], Key(req))
        && FirstMatch(names, stores, req).value == stores[names[i]][Key(req)]
        && forall j :: 0 <= j < i ==> !Holds(stores, names[j], Key(req))
  {
    if req.httpMethod == "GET" && |names| > 0 && !Holds(stores, names[0], Key(req)) {
      FirstMatchSpec(names[1..], stores, req);
      var r := FirstMatch(names, stores, req);
      assert r == FirstMatch(names[1..], stores, req);
      if r.Some? {
        var i :| 0 <= i < |names| - 1 && Holds(stores, names[1..][i], Key(req))
          && r.value == stores[names[1..][i]][Key(req)]
          && forall j :: 0 <= j < i ==> !Holds(stores, names[1..][j], Key(req));
        assert names[i + 1] == names[1..][i];
        assert forall j :: 0 <= j < i + 1 ==> !Holds(stores, names[j], Key(req)) by {
          forall j | 0 <= j < i + 1 ensures !Holds(stores, names[j], Key(req)) {
            if j > 0 { assert names[j] == names[1..][j - 1]; }
          }
        }
      } else {
        forall i | 0 <= i < |names| ensures !Holds(stores, names[i], Key(req)) {
          if i > 0 { assert names[i] == names[1..][i - 1]; }
        }
      }
    }
  }

  /** What `cache.addAll` accepts from a fetch: a response that is ok and not a partial
      (status 206) one. */
  predicate Addable(r: FetchResult) {
    r.Fetched? && IsOk(r.response) && r.response.status != 206
  }

  predicate AllAddable(results: seq<FetchResult>) {
    forall i :: 0 <= i < |results| ==> Addable(results[i])
  }

  /** The cache `store` after putting `rs[i]` under `keys[i]`, in order. */
  function WithEntries(store: Store, keys: seq<string>, rs: seq<Response>): Store
    requires |keys| == |rs|
    decreases |keys|
  {
    if |keys| == 0 then store else WithEntries(store[keys[0] := rs[0]], keys[1..], rs[1..])
  }

  /** Putting distinct keys: each key holds its own response and every other entry stays. */
  lemma {:induction false} WithEntriesSpec(store: Store, keys: seq<string>, rs: seq<Response>)
    requires |keys| == |rs| && Distinct(keys)
    ensures WithEntries(store, keys, rs).Keys == store.Keys + set k | k in keys
    ensures forall i :: 0 <= i < |keys| ==> WithEntries(store, keys, rs)[keys[i]] == rs[i]
    ensures forall k :: k in store && k !in keys ==> WithEntries(store, keys, rs)[k] == store[k]
    decreases |keys|
  {
    if |keys| > 0 {
      var next := store[keys[0] := rs[0]];
      WithEntriesSpec(next, keys[1..], rs[1..]);
      var r := WithEntries(store, keys, rs);
      assert r == WithEntries(next, keys[1..], rs[1..]);
      assert keys[0] !in keys[1..];
      assert (set k | k in keys) == {keys[0]} + set k | k in keys[1..];
      forall i | 0 <= i < |keys| ensures r[keys[i]] == rs[i] {
        if i > 0 { assert keys[i] == keys[1..][i - 1] && rs[i] == rs[1..][i - 1]; }
      }
    }
  }

  function Responses(results: seq<FetchResult>): (rs: seq<Response>)
    requires AllAddable(results)
    ensures |rs| == |results| && forall i :: 0 <= i < |rs| ==> rs[i] == results[i].response
  {
    seq(|results|, i requires 0 <= i < |results| => results[i].response)
  }

  /** `s` without `x`, in order. */
  function Without(s: seq<string>, x: string): (r: seq<string>)
    ensures forall n :: n in r <==> n in s && n != x
    ensures Distinct(s) ==> Distinct(r)
  {
    if |s| == 0 then [] else if s[0] == x then Without(s[1..], x) else [s[0]] + Without(s[1..], x)
  }

  /** The elements of `s` in `keep`, in order. */
  function KeptOnly(s: seq<string>, keep: set<string>): (r: seq<string>)
    ensures forall n {:trigger n in r} :: n in r <==> n in s && n in keep
  {
    if |s| == 0 then [] else KeptOnly(s[..|s| - 1], keep) + (if s[|s| - 1] in keep then [s[|s| - 1]] else [])
  }

  lemma {:induction false} WithoutMissing(s: seq<string>, x: string)
    requires x !in s
    ensures Without(s, x) == s
  {
    if |s| > 0 {
      WithoutMissing(s[1..], x);
      assert [s[0]] + s[1..] == s;
    }
  }

  /** Without keeps the order: deleting from a concatenation deletes from each part. */
  lemma {:induction false} WithoutAppend(a: seq<string>, b: seq<string>, x: string)
    ensures Without(a + b, x) == Without(a, x) + Without(b, x)
  {
    if |a| > 0 {
      assert (a + b)[1..] == a[1..] + b;
      WithoutAppend(a[1..], b, x);
    } else {
      assert a + b == b;
    }
  }

  class CacheStorage {
    /** The caches' names in the order they were created: `caches.keys()`. */
    var names: seq<string>
    var stores: Stores

    ghost predicate Valid()
      reads this
    {
      Distinct(names) && forall n :: n in names <==> n in stores
    }

    constructor()
      ensures Valid() && names == [] && stores == map[]
    {
      names := [];
      stores := map[];
    }

    /** `caches.open(name)` */
    method Open(name: string)
      requires Valid()
      modifies this
      ensures Valid()
      ensures stores == Opened(old(stores), name)
      ensures names == if name in old(stores) then old(names) else old(names) + [name]
    {
      if name !in stores {
        DistinctAppend(names, name);
        names := names + [name];
        stores := stores[name := map[]];
      }
    }

    /** `cache.put(req, resp)` on the opened cache `name`. */
    method Put(name: string, req: Request, resp: Response)
      requires Valid() && name in stores
      modifies this
      ensures Valid()
      ensures names == old(names) && stores == Stored(old(stores), name, req, resp)
    {
      if req.httpMethod == "GET" {
        stores := stores[name := stores[name][Key(req) := resp]];
      }
    }

    /** `caches.delete(name)`: whether there was such a cache. */
    method Delete(name: string) returns (deleted: bool)
      requires Valid()
      modifies this
      ensures Valid()
      ensures deleted <==> name in old(stores)
      ensures names == Without(old(names), name) && stores == old(stores) - {name}
    {
      deleted := name in stores;
      names := Without(names, name);
      stores := stores - {name};
    }

    /** `cache.addAll(urls)` on the opened cache `name`, given what fetching each URL gives:
        all or nothing, and only when every fetch gave an ok, complete (not 206) response and no URL repeats. */
    method AddAll(name: string, hrefs: seq<string>, results: seq<FetchResult>) returns (ok: bool)
      requires Valid() && name in stores && |hrefs| == |results|
      modifies this
      ensures Valid() && names == old(names)
      ensures ok <==> Distinct(hrefs) && AllAddable(results)
      ensures ok ==> stores == old(stores)[name := WithEntries(old(stores)[name], hrefs, Responses(results))]
      ensures !ok ==> stores == old(stores)
    {
      ok := Distinct(hrefs) && AllAddable(results);
      if ok {
        var responses := Responses(results);
        var store := stores[name];
        var i := 0;
        while i < |hrefs|
          invariant 0 <= i <= |hrefs|
          invariant WithEntries(store, hrefs[i..], responses[i..]) == WithEntries(stores[name], hrefs, responses)
        {
          assert hrefs[i..][1..] == hrefs[i + 1..] && responses[i..][1..] == responses[i + 1..];
          store := store[hrefs[i] := responses[i]];
          i := i + 1;
        }
        stores := stores[name := store];
      }
    }

    /** One name of the clean-up, the `i`-th of those `caches.keys()` listed: `caches.delete`
        unless it is kept. */
    method DeleteUnlessKept(keep: set<string>, listed: seq<string>, i: nat, ghost orig: Stores)
      requires i < |listed| && Valid() && names == KeptOnly(listed[..i], keep) + listed[i..]
      requires forall n :: n in stores ==> n in orig && stores[n] == orig[n]
      modifies this
      ensures Valid() && names == KeptOnly(listed[..i + 1], keep) + listed[i + 1..]
      ensures forall n :: n in stores ==> n in orig && stores[n] == orig[n]
    {
      var name := listed[i];
      assert listed[i..] == [name] + listed[i + 1..];
      assert listed[..i + 1] == listed[..i] + [name];
      if name !in keep {
        DroppedStep(listed[..i], name, listed[i + 1..], keep);
        var _ := Delete(name);
      } else {
        KeptStep(listed[..i], name, listed[i + 1..], keep);
      }
    }

    /** The activate handlers' clean-up: every cache whose name is not in `keep` is deleted,
        one `caches.delete` per name listed by `caches.keys()`. */
    method DeleteAllExcept(keep: set<string>)
      requires Valid()
      modifies this
      ensures Valid()
      ensures names == KeptOnly(old(names), keep)
      ensures stores == map n | n in old(stores) && n in keep :: old(stores)[n]
    {
      var cacheNames := names;
      var i := 0;
      assert cacheNames[..0] == [] && cacheNames[0..] == cacheNames;
      while i < |cacheNames|
        invariant 0 <= i <= |cacheNames|
        invariant Valid()
        invariant names == KeptOnly(cacheNames[..i], keep) + cacheNames[i..]
        invariant forall n :: n in stores ==> n in old(stores) && stores[n] == old(stores)[n]
      {
        DeleteUnlessKept(keep, cacheNames, i, old(stores));
        i := i + 1;
      }
      assert cacheNames[..i] == cacheNames && cacheNames[i..] == [];
      assert forall n :: n in stores <==> n in old(stores) && n in keep by {
        assert names == KeptOnly(cacheNames, keep);
        assert forall n :: n in old(stores) <==> n in cacheNames;
      }
      KeptOnlyAll(old(stores), stores, keep);
    }
  }

  /** One round of the clean-up loop on the names, when `name` is not kept: deleting it from
      the kept names seen so far, `name` and the names not yet seen leaves the kept names seen
      so far, now including `name`, followed by the names not yet seen. */
  lemma DroppedStep(seen: seq<string>, name: string, rest: seq<string>, keep: set<string>)
    requires name !in keep && Distinct(KeptOnly(seen, keep) + ([name] + rest))
    ensures Without(KeptOnly(seen, keep) + ([name] + rest), name) == KeptOnly(seen + [name], keep) + rest
  {
    var done := KeptOnly(seen, keep);
    RemoveOnce(done, name, rest);
    assert KeptOnly(seen + [name], keep) == done by {
      KeptSnoc(seen, name, keep);
      assert done + [] == done;
    }
  }

  /** Deleting a name that occurs once removes just that occurrence. */
  lemma RemoveOnce(done: seq<string>, name: string, rest: seq<string>)
    requires Distinct(done + ([name] + rest))
    ensures Without(done + ([name] + rest), name) == done + rest
  {
    DistinctMiddle(done, name, rest);
    WithoutStep(done, name, rest);
  }

  /** The same round when `name` is kept: the names are unchanged, and `name` joins the kept
      names seen so far. */
  lemma KeptStep(seen: seq<string>, name: string, rest: seq<string>, keep: set<string>)
    requires name in keep
    ensures KeptOnly(seen, keep) + ([name] + rest) == KeptOnly(seen + [name], keep) + rest
  {
    KeptSnoc(seen, name, keep);
    assert KeptOnly(seen, keep) + ([name] + rest) == (KeptOnly(seen, keep) + [name]) + rest;
  }

  /** KeptOnly keeps the order: the kept names of a concatenation are the kept names of
      each part, one after the other. */
  lemma {:induction false} KeptOnlyAppend(a: seq<string>, b: seq<string>, keep: set<string>)
    ensures KeptOnly(a + b, keep) == KeptOnly(a, keep) + KeptOnly(b, keep)
    decreases |b|
  {
    if |b| == 0 {
      assert a + b == a;
    } else {
      var n := |b| - 1;
      KeptOnlyAppend(a, b[..n], keep);
      KeptAppendLast(a, b[..n], b[n], keep);
      assert b[..n] + [b[n]] == b;
    }
  }

  /** The step of `KeptOnlyAppend`: one more name at the end of the second part. */
  lemma KeptAppendLast(a: seq<string>, c: seq<string>, x: string, keep: set<string>)
    requires KeptOnly(a + c, keep) == KeptOnly(a, keep) + KeptOnly(c, keep)
    ensures KeptOnly(a + (c + [x]), keep) == KeptOnly(a, keep) + KeptOnly(c + [x], keep)
  {
    var last := if x in keep then [x] else [];
    calc {
      KeptOnly(a + (c + [x]), keep);
      { assert a + (c + [x]) == (a + c) + [x]; }
      KeptOnly((a + c) + [x], keep);
      { KeptSnoc(a + c, x, keep); }
      KeptOnly(a + c, keep) + last;
      (KeptOnly(a, keep) + KeptOnly(c, keep)) + last;
      KeptOnly(a, keep) + (KeptOnly(c, keep) + last);
      { KeptSnoc(c, x, keep); }
      KeptOnly(a, keep) + KeptOnly(c + [x], keep);
    }
  }

  /** A single name is kept exactly when it is in `keep`. */
  lemma KeptOnlyOne(x: string, keep: set<string>)
    ensures KeptOnly([x], keep) == if x in keep then [x] else []
  {
    assert [x][..0] == [];
  }

  /** Without a single name: the name goes exactly when it is the one deleted. */
  lemma WithoutOne(y: string, x: string)
    ensures Without([y], x) == if y == x then [] else [y]
  {
    assert [y][1..] == [];
  }

  lemma KeptSnoc(s: seq<string>, x: string, keep: set<string>)
    ensures KeptOnly(s + [x], keep) == KeptOnly(s, keep) + (if x in keep then [x] else [])
  {
    assert (s + [x])[..|s|] == s;
  }

  lemma WithoutStep(done: seq<string>, x: string, rest: seq<string>)
    requires x !in done && x !in rest
    ensures Without(done + ([x] + rest), x) == done + rest
  {
    WithoutAppend(done, [x] + rest, x);
    WithoutAppend([x], rest, x);
    WithoutMissing(done, x);
    WithoutMissing(rest, x);
    assert Without([x], x) == [];
  }

  lemma KeptOnlyAll(orig: Stores, now: Stores, keep: set<string>)
    requires forall n :: n in now <==> n in orig && n in keep
    requires forall n :: n in now ==> now[n] == orig[n]
    ensures now == map n | n in orig && n in keep :: orig[n]
  {
  }

  lemma {:induction false} DistinctAppend(s: seq<string>, x: string)
    requires Distinct(s) && x !in s
    ensures Distinct(s + [x])
  {
    if |s| > 0 {
      assert (s + [x])[1..] == s[1..] + [x];
      DistinctAppend(s[1..], x);
    } else {
      assert s + [x] == [x];
    }
  }

  /** In a list without repetition, an element occurs neither before nor after itself. */
  lemma {:induction false} DistinctMiddle(a: seq<string>, x: string, b: seq<string>)
    requires Distinct(a + ([x] + b))
    ensures x !in a && x !in b
    decreases |a|
  {
    var s := a + ([x] + b);
    if |a| > 0 {
      assert s[1..] == a[1..] + ([x] + b);
      assert x in s[1..];
      DistinctMiddle(a[1..], x, b);
      assert a == [a[0]] + a[1..];
    } else {
      assert s == [x] + b && s[1..] == b;
    }
  }

}
