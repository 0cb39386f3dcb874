/** The offline cache layer that runs inside the service worker
    (public/service-worker.js): request classification, the three caching
    strategies, install/activate and the message handler.

    Cache Storage is a map from cache name to a cache, and a cache is a map
    from request URL to the stored response. The network is an input: each
    fetch either produces a response (`Ok`) or rejects (`Fail`). The un-awaited
    `cache.put` calls and the background revalidation are taken to complete
    at once. */
module ServiceWorker {
  import opened Basics

  const AppShellCache: string := "nestelia-v1"
  const RuntimeCache: string := "nestelia-runtime-v1"
  const WikiCache: string := "nestelia-wiki-v1"
  const ImageCache: string := "nestelia-images-v1"

  /** The cache names of the current generation; activation keeps exactly these. */
  const CurrentCaches: seq<string> := [AppShellCache, RuntimeCache, WikiCache, ImageCache]

  /** The app shell that install stores. */
  const PrecacheUrls: seq<string> := ["/", "/index.html", "/manifest.json"]

  const ImageExtensions: seq<string> := ["png", "jpg", "jpeg", "svg", "gif", "webp", "ico"]
  const AssetExtensions: seq<string> := ["js", "css", "woff", "woff2", "ttf", "otf"]

  datatype Response = Response(status: int, body: string)

  /** What one call to `fetch` does: resolve with a response or reject. */
  datatype NetOutcome = Ok(response: Response) | Fail

  /** The fields of a fetch event's request that the worker reads. `url` is
      the full URL, the key under which the response is cached. */
  datatype Request = Request(
    verb: string,
    url: string,
    protocol: string,
    pathname: string,
    destination: string,
    mode: string)

  datatype Strategy = CacheFirst | NetworkFirst | StaleWhileRevalidate

  /** `Bypass`: the handler returns without `respondWith`, so the browser
      fetches as if there were no worker. */
  datatype Route = Bypass | Handle(cacheName: string, strategy: Strategy)

  /** What a strategy's promise settles to: a response, a rejection, or
      `undefined` (stale-while-revalidate with no entry and a failed fetch). */
  datatype Answer = Respond(response: Response) | Reject | Undefined

  // ---------------------------------------------------------------------
  // Classification (service-worker.js:93-136)

  /** `/\.(e1|e2|...)$/i.test(path)`: the path ends, ignoring ASCII case, in
      a dot and one of the extensions. */
  predicate HasExtension(path: string, exts: seq<string>) {
    exists e | e in exts :: EndsWith(Lower(path), "." + e)
  }

  predicate IsImage(r: Request) {
    r.destination == "image" || HasExtension(r.pathname, ImageExtensions)
  }

  predicate IsStaticAsset(r: Request) {
    r.destination == "script" || r.destination == "style" || r.destination == "font"
    || HasExtension(r.pathname, AssetExtensions)
  }

  predicate IsWikiApi(r: Request) {
    Contains(r.pathname, "/api/wiki") || Contains(r.pathname, "/api/entries")
    || Contains(r.pathname, "/api/categories")
  }

  predicate IsApi(r: Request) {
    Contains(r.pathname, "/api/")
  }

  predicate IsNavigation(r: Request) {
    r.destination == "document" || r.mode == "navigate"
  }

  predicate Bypassed(r: Request) {
    r.verb != "GET" || !StartsWith(r.protocol, "http")
  }

  /** The fetch handler's if-chain. */
  function Classify(r: Request): (route: Route)
    ensures route == Bypass <==> Bypassed(r)
    ensures route.Handle? ==> route.cacheName in CurrentCaches
    ensures route.Handle? && route.strategy == CacheFirst ==> IsImage(r) || IsStaticAsset(r)
  {
    if r.verb != "GET" then Bypass
    else if !StartsWith(r.protocol, "http") then Bypass
    else if IsImage(r) then Handle(ImageCache, CacheFirst)
    else if IsStaticAsset(r) then Handle(AppShellCache, CacheFirst)
    else if IsWikiApi(r) then Handle(WikiCache, NetworkFirst)
    else if IsApi(r) then Handle(RuntimeCache, NetworkFirst)
    else if IsNavigation(r) then Handle(RuntimeCache, NetworkFirst)
    else Handle(RuntimeCache, StaleWhileRevalidate)
  }

  /** The classification rules as a table, read top to bottom. */
  datatype Rule = Rule(applies: Request -> bool, route: Route)

  function Rules(): seq<Rule> {
    [ Rule(Bypassed, Bypass),
      Rule(IsImage, Handle(ImageCache, CacheFirst)),
      Rule(IsStaticAsset, Handle(AppShellCache, CacheFirst)),
      Rule(IsWikiApi, Handle(WikiCache, NetworkFirst)),
      Rule(IsApi, Handle(RuntimeCache, NetworkFirst)),
      Rule(IsNavigation, Handle(RuntimeCache, NetworkFirst)) ]
  }

  /** The route of the first rule that applies, the fallback when none does. */
  function FirstMatch(rules: seq<Rule>, r: Request, fallback: Route): Route {
    if rules == [] then fallback
    else if rules[0].applies(r) then rules[0].route
    else FirstMatch(rules[1..], r, fallback)
  }

  /** Classification is first-match over the rule table, with
      stale-while-revalidate on the runtime cache as the fallback. */
  lemma ClassifyIsFirstMatch(r: Request)
    ensures Classify(r) == FirstMatch(Rules(), r, Handle(RuntimeCache, StaleWhileRevalidate))
  {
    var rs := Rules();
    var fallback := Handle(RuntimeCache, StaleWhileRevalidate);
    assert FirstMatch(rs[6..], r, fallback) == fallback;
    assert FirstMatch(rs[5..], r, fallback) == if IsNavigation(r) then Handle(RuntimeCache, NetworkFirst) else fallback;
    assert FirstMatch(rs[4..], r, fallback) ==
      if IsApi(r) then Handle(RuntimeCache, NetworkFirst) else FirstMatch(rs[5..], r, fallback);
    assert FirstMatch(rs[3..], r, fallback) ==
      if IsWikiApi(r) then Handle(WikiCache, NetworkFirst) else FirstMatch(rs[4..], r, fallback);
    assert FirstMatch(rs[2..], r, fallback) ==
      if IsStaticAsset(r) then Handle(AppShellCache, CacheFirst) else FirstMatch(rs[3..], r, fallback);
    assert FirstMatch(rs[1..], r, fallback) ==
      if IsImage(r) then Handle(ImageCache, CacheFirst) else FirstMatch(rs[2..], r, fallback);
  }

  /** A request is left to the browser exactly when it is not a GET or its
      protocol does not start with "http". */
  lemma BypassExactly(r: Request)
    ensures Classify(r) == Bypass <==> r.verb != "GET" || !StartsWith(r.protocol, "http")
  {
  }

  /** Every cache the handler uses is one that activation keeps. */
  lemma RoutesUseCurrentCaches(r: Request)
    ensures Classify(r).Handle? ==> Classify(r).cacheName in CurrentCaches
    ensures Classify(r).Handle? && Classify(r).strategy == StaleWhileRevalidate ==>
              Classify(r).cacheName == RuntimeCache
  {
  }

  function ApiGet(path: string): Request {
    Request("GET", "https://nestelia.example" + path, "https:", path, "", "cors")
  }

  /** Substring matching sends an entry lookup under /api/wikientry to the
      wiki cache, although the rule names /api/wiki. */
  lemma WikiEntryApiGoesToWikiCache()
    ensures Classify(ApiGet("/api/wikientry/getbyid/7")) == Handle(WikiCache, NetworkFirst)
  {
    var r := ApiGet("/api/wikientry/getbyid/7");
    assert !HasExtension(r.pathname, ImageExtensions) by {
      forall e | e in ImageExtensions ensures !EndsWith(Lower(r.pathname), "." + e) {
        assert Lower(r.pathname)[|r.pathname| - 1] == '7';
      }
    }
    assert !HasExtension(r.pathname, AssetExtensions) by {
      forall e | e in AssetExtensions ensures !EndsWith(Lower(r.pathname), "." + e) {
        assert Lower(r.pathname)[|r.pathname| - 1] == '7';
      }
    }
    assert OccursAt(r.pathname, "/api/wiki", 0);
  }

  const CategoryListPath := "/api/category/list-categories"

  lemma CategoryListPathHasNoExtension()
    ensures !HasExtension(CategoryListPath, ImageExtensions)
    ensures !HasExtension(CategoryListPath, AssetExtensions)
  {
    var p := CategoryListPath;
    forall e | e in ImageExtensions + AssetExtensions ensures !EndsWith(Lower(p), "." + e) {
      assert Lower(p)[|p| - 1] == 's' && Lower(p)[|p| - 2] == 'e';
    }
  }

  lemma CategoryListPathMarkers()
    ensures !Contains(CategoryListPath, "/api/wiki")
    ensures !Contains(CategoryListPath, "/api/entries")
    ensures !Contains(CategoryListPath, "/api/categories")
    ensures Contains(CategoryListPath, "/api/")
  {
    var p := CategoryListPath;
    NotContains(p, "/api/wiki", 1, 5);
    NotContains(p, "/api/entries", 1, 5);
    NotContains(p, "/api/categories", 1, 12);
    assert p[0..5] == "/api/";
    assert OccursAt(p, "/api/", 0);
  }

  /** The singular /api/category/ matches none of the wiki markers and
      falls to the generic API rule. */
  lemma CategoryApiGoesToRuntimeCache()
    ensures Classify(ApiGet(CategoryListPath)) == Handle(RuntimeCache, NetworkFirst)
  {
    CategoryListPathHasNoExtension();
    CategoryListPathMarkers();
  }

  /** The image rule comes first: an image under the wiki API is served
      cache-first from the image cache. */
  lemma ImageUnderWikiApiGoesToImages()
    ensures Classify(ApiGet("/api/wiki/x.png")) == Handle(ImageCache, CacheFirst)
  {
    var p := "/api/wiki/x.png";
    assert "png" in ImageExtensions;
    assert EndsWith(Lower(p), "." + "png");
  }

  // ---------------------------------------------------------------------
  // Cache Storage operations

  /** `caches.open(name)` creates the cache when it does not exist. */
  function Opened(cs: map<string, map<string, Response>>, name: string): (r: map<string, map<string, Response>>)
    ensures r.Keys == cs.Keys + {name}
    ensures name in cs ==> r == cs
    ensures name !in cs ==> r[name] == map[]
    ensures forall n | n in cs :: r[n] == cs[n]
  {
    if name in cs then cs else cs[name := map[]]
  }

  /** A response `addAll` accepts: an ok status (200-299) other than 206
      Partial Content, which the W3C Service Workers specification makes
      `addAll` reject. */
  predicate OkStatus(status: int) {
    200 <= status <= 299 && status != 206
  }

  predicate Distinct(urls: seq<string>) {
    forall i, j :: 0 <= i < j < |urls| ==> urls[i] != urls[j]
  }

  /** `Cache.addAll` succeeds, and stores anything, only when every fetch
      resolves with an accepted status (200-299 but not 206) and no URL is repeated (a batch
      with two puts for one request fails with InvalidStateError in the
      Batch Cache Operations algorithm of the W3C Service Workers
      specification). */
  predicate AddAllSucceeds(urls: seq<string>, net: string -> NetOutcome) {
    Distinct(urls) && forall u | u in urls :: net(u).Ok? && OkStatus(net(u).response.status)
  }

  // ---------------------------------------------------------------------
  // What a strategy does to one cache

  /** The strategy's answer and the cache it leaves behind. */
  datatype Served = Served(answer: Answer, cache: map<string, Response>)

  /** Only a 200 response is written back (`response.status === 200`). */
  function Stored(c: map<string, Response>, key: string, resp: Response): map<string, Response> {
    if resp.status == 200 then c[key := resp] else c
  }

  /** One strategy run against cache `c` for `key`, when the network, if
      asked, gives `net`. */
  function Serve(s: Strategy, c: map<string, Response>, key: string, net: NetOutcome): Served {
    match s
    case CacheFirst =>
      if key in c then Served(Respond(c[key]), c)
      else if net.Ok? then Served(Respond(net.response), Stored(c, key, net.response))
      else Served(Reject, c)
    case NetworkFirst =>
      if net.Ok? then Served(Respond(net.response), Stored(c, key, net.response))
      else Served(if key in c then Respond(c[key]) else Reject, c)
    case StaleWhileRevalidate =>
      Served(
        if key in c then Respond(c[key]) else if net.Ok? then Respond(net.response) else Undefined,
        if net.Ok? then Stored(c, key, net.response) else c)
  }

  /** Whether the strategy calls `fetch`: all but a cache-first hit do. */
  function Fetches(s: Strategy, c: map<string, Response>, key: string): bool {
    !(s == CacheFirst && key in c)
  }

  /** Whatever the strategy, only the entry for the request's URL can change,
      and only to a 200 response the network gave. */
  lemma ServeOnlyStoresOkAtKey(s: Strategy, c: map<string, Response>, key: string, net: NetOutcome)
    ensures var r := Serve(s, c, key, net).cache;
      && r.Keys <= c.Keys + {key}
      && (forall k | k in c && k != key :: k in r && r[k] == c[k])
      && (key in r && (key !in c || r[key] != c[key]) ==>
            net.Ok? && net.response.status == 200 && r[key] == net.response)
  {
  }

  /** Offline, every strategy serves the cached entry when there is one. */
  lemma OfflineServesCached(s: Strategy, c: map<string, Response>, key: string)
    requires key in c
    ensures Serve(s, c, key, Fail).answer == Respond(c[key])
    ensures Serve(s, c, key, Fail).cache == c
  {
  }

  /** A strategy answers with something other than a response only when the
      network failed and nothing was cached; only stale-while-revalidate
      then settles to `undefined`, the other two reject. */
  lemma NoAnswerOnlyOfflineMiss(s: Strategy, c: map<string, Response>, key: string, net: NetOutcome)
    ensures !Serve(s, c, key, net).answer.Respond? <==> net.Fail? && key !in c
    ensures Serve(s, c, key, net).answer == Undefined <==> s == StaleWhileRevalidate && net.Fail? && key !in c
  {
  }

  /** Online, network-first answers with the network's response, and so
      does cache-first on a miss; stale-while-revalidate does only on a
      miss. */
  lemma OnlineAnswers(s: Strategy, c: map<string, Response>, key: string, resp: Response)
    ensures s == NetworkFirst || key !in c ==> Serve(s, c, key, Ok(resp)).answer == Respond(resp)
    ensures s != NetworkFirst && key in c ==> Serve(s, c, key, Ok(resp)).answer == Respond(c[key])
  {
  }

  /** The service worker's global state. */
  class Worker {
    var caches: map<string, map<string, Response>>
    /** Every URL passed to `fetch`, in order. */
    var fetchLog: seq<string>
    var skipWaitingCalls: nat
    var clientsClaimed: bool

    constructor (existing: map<string, map<string, Response>>)
      ensures caches == existing && fetchLog == [] && skipWaitingCalls == 0 && !clientsClaimed
    {
      caches := existing;
      fetchLog := [];
      skipWaitingCalls := 0;
      clientsClaimed := false;
    }

    method Open(name: string)
      modifies this`caches
      ensures caches == Opened(old(caches), name)
    {
      if name !in caches {
        caches := caches[name := map[]];
      }
    }

    /** `cache.put(key, response)` on an open cache. */
    method Put(name: string, key: string, response: Response)
      requires name in caches
      modifies this`caches
      ensures caches == old(caches)[name := old(caches)[name][key := response]]
    {
      caches := caches[name := caches[name][key := response]];
    }

    method Fetch(key: string, net: NetOutcome) returns (outcome: NetOutcome)
      modifies this`fetchLog
      ensures fetchLog == old(fetchLog) + [key] && outcome == net
    {
      fetchLog := fetchLog + [key];
      outcome := net;
    }

    /** service-worker.js:40-57. */
    method CacheFirst(key: string, name: string, net: NetOutcome) returns (a: Answer)
      modifies this`caches, this`fetchLog
      ensures var c := Opened(old(caches), name)[name];
        if key in c then
          // a hit: the stored response, no fetch, nothing stored
          a == Respond(c[key]) && fetchLog == old(fetchLog) && caches == Opened(old(caches), name)
        else
          fetchLog == old(fetchLog) + [key] &&
          match net
          case Fail => a == Reject && caches == Opened(old(caches), name)
          case Ok(resp) =>
            a == Respond(resp) &&
            caches == if resp.status == 200 then Opened(old(caches), name)[name := c[key := resp]]
                      else Opened(old(caches), name)
      ensures var c := Opened(old(caches), name)[name];
        && a == Serve(Strategy.CacheFirst, c, key, net).answer
        && caches == Opened(old(caches), name)[name := Serve(Strategy.CacheFirst, c, key, net).cache]
    {
      Open(name);
      if key in caches[name] {
        return Respond(caches[name][key]);
      }
      var outcome := Fetch(key, net);
      match outcome
      case Fail =>
        a := Reject;
      case Ok(resp) =>
        if resp.status == 200 {
          Put(name, key, resp);
        }
        a := Respond(resp);
    }

    /** service-worker.js:59-75. */
    method NetworkFirst(key: string, name: string, net: NetOutcome) returns (a: Answer)
      modifies this`caches, this`fetchLog
      ensures fetchLog == old(fetchLog) + [key]
      ensures var c := Opened(old(caches), name)[name];
        match net
        case Ok(resp) =>
          // any response is returned; only a 200 is stored
          a == Respond(resp) &&
          caches == if resp.status == 200 then Opened(old(caches), name)[name := c[key := resp]]
                    else Opened(old(caches), name)
        case Fail =>
          caches == Opened(old(caches), name) &&
          a == if key in c then Respond(c[key]) else Reject
      ensures var c := Opened(old(caches), name)[name];
        && a == Serve(Strategy.NetworkFirst, c, key, net).answer
        && caches == Opened(old(caches), name)[name := Serve(Strategy.NetworkFirst, c, key, net).cache]
    {
      Open(name);
      var outcome := Fetch(key, net);
      match outcome
      case Ok(resp) =>
        if resp.status == 200 {
          Put(name, key, resp);
        }
        a := Respond(resp);
      case Fail =>
        if key in caches[name] {
          a := Respond(caches[name][key]);
        } else {
          a := Reject;
        }
    }

    /** service-worker.js:77-91. */
    method StaleWhileRevalidate(key: string, name: string, net: NetOutcome) returns (a: Answer)
      modifies this`caches, this`fetchLog
      ensures fetchLog == old(fetchLog) + [key]
      ensures var c := Opened(old(caches), name)[name];
        // the stored entry if any, else the network's result; a failed fetch is swallowed
        && a == (if key in c then Respond(c[key])
                 else if net.Ok? then Respond(net.response) else Undefined)
        // revalidation overwrites only on 200
        && caches == if net.Ok? && net.response.status == 200
                     then Opened(old(caches), name)[name := c[key := net.response]]
                     else Opened(old(caches), name)
      ensures var c := Opened(old(caches), name)[name];
        && a == Serve(Strategy.StaleWhileRevalidate, c, key, net).answer
        && caches == Opened(old(caches), name)[name := Serve(Strategy.StaleWhileRevalidate, c, key, net).cache]
    {
      Open(name);
      var cached: Option<Response> := if key in caches[name] then Some(caches[name][key]) else None;
      var outcome := Fetch(key, net);
      var fetched: Answer := Undefined;
      match outcome {
        case Ok(resp) =>
          if resp.status == 200 {
            Put(name, key, resp);
          }
          fetched := Respond(resp);
        case Fail =>
          // the failure is only logged
          fetched := Undefined;
      }
      a := if cached.Some? then Respond(cached.value) else fetched;
    }

    /** The fetch listener (service-worker.js:93-136): `handled` is whether
        it calls `respondWith`, and then `a` is what it responds with. */
    method OnFetch(req: Request, net: NetOutcome) returns (handled: bool, a: Answer)
      modifies this`caches, this`fetchLog
      ensures handled == Classify(req).Handle?
      ensures !handled ==> caches == old(caches) && fetchLog == old(fetchLog)
      ensures handled ==>
        var route := Classify(req);
        var c := Opened(old(caches), route.cacheName)[route.cacheName];
        var r := Serve(route.strategy, c, req.url, net);
        && a == r.answer
        && caches == Opened(old(caches), route.cacheName)[route.cacheName := r.cache]
        && fetchLog == old(fetchLog) + (if Fetches(route.strategy, c, req.url) then [req.url] else [])
    {
      handled := false;
      a := Undefined;
      match Classify(req)
      case Bypass =>
      case Handle(name, strategy) =>
        handled := true;
        match strategy {
          case CacheFirst => a := CacheFirst(req.url, name, net);
          case NetworkFirst => a := NetworkFirst(req.url, name, net);
          case StaleWhileRevalidate => a := StaleWhileRevalidate(req.url, name, net);
        }
    }

    /** `cache.addAll(urls)` on the named cache: all URLs are fetched, and
        either all responses are stored or none is. */
    method AddAll(name: string, urls: seq<string>, net: string -> NetOutcome) returns (ok: bool)
      requires name in caches
      modifies this`caches, this`fetchLog
      ensures fetchLog == old(fetchLog) + urls
      ensures ok == AddAllSucceeds(urls, net)
      ensures caches.Keys == old(caches).Keys
      ensures forall n | n in old(caches) && n != name :: caches[n] == old(caches)[n]
      ensures !ok ==> caches == old(caches)
      ensures ok ==> caches[name].Keys == old(caches)[name].Keys + set u | u in urls
      ensures ok ==> forall u | u in urls :: caches[name][u] == net(u).response
      ensures ok ==> forall k | k in old(caches)[name] && k !in urls :: caches[name][k] == old(caches)[name][k]
    {
      // fetch every URL
      var i := 0;
      ok := true;
      while i < |urls|
        invariant 0 <= i <= |urls|
        invariant fetchLog == old(fetchLog) + urls[..i]
        invariant caches == old(caches)
        invariant ok == forall j | 0 <= j < i :: net(urls[j]).Ok? && OkStatus(net(urls[j]).response.status)
      {
        var outcome := Fetch(urls[i], net(urls[i]));
        ok := ok && outcome.Ok? && OkStatus(outcome.response.status);
        i := i + 1;
      }
      assert urls[..i] == urls;
      // the batch of puts refuses two puts for one request
      var j := 0;
      while j < |urls| && ok
        invariant 0 <= j <= |urls|
        invariant ok ==> forall p, q :: 0 <= p < q < |urls| && p < j ==> urls[p] != urls[q]
        invariant ok ==> forall u | u in urls :: net(u).Ok? && OkStatus(net(u).response.status)
        invariant !ok ==> !AddAllSucceeds(urls, net)
      {
        if urls[j] in urls[j + 1..] {
          ok := false;
        }
        j := j + 1;
      }
      if !ok {
        return;
      }
      assert AddAllSucceeds(urls, net);
      var c := caches[name];
      var k := 0;
      while k < |urls|
        invariant 0 <= k <= |urls|
        invariant AddAllSucceeds(urls, net)
        invariant c.Keys == caches[name].Keys + set u | u in urls[..k]
        invariant forall u | u in urls[..k] :: c[u] == net(u).response
        invariant forall key | key in caches[name] && key !in urls[..k] :: c[key] == caches[name][key]
      {
        c := c[urls[k] := net(urls[k]).response];
        k := k + 1;
      }
      assert urls[..k] == urls;
      caches := caches[name := c];
    }

    /** The install listener (service-worker.js:13-21): store the app shell,
        then call skipWaiting; if the precache fails neither happens. */
    method Install(net: string -> NetOutcome) returns (installed: bool)
      modifies this`caches, this`fetchLog, this`skipWaitingCalls
      ensures installed == AddAllSucceeds(PrecacheUrls, net)
      ensures AppShellCache in caches
      ensures fetchLog == old(fetchLog) + PrecacheUrls
      ensures skipWaitingCalls == old(skipWaitingCalls) + (if installed then 1 else 0)
      ensures installed ==> AppShellCache in caches && forall u | u in PrecacheUrls :: u in caches[AppShellCache] && caches[AppShellCache][u] == net(u).response
      ensures installed ==>
        var shell := Opened(old(caches), AppShellCache)[AppShellCache];
        && caches.Keys == old(caches).Keys + {AppShellCache}
        && (forall n | n in old(caches) && n != AppShellCache :: caches[n] == old(caches)[n])
        && caches[AppShellCache].Keys == shell.Keys + set u | u in PrecacheUrls
        && (forall k | k in shell && k !in PrecacheUrls :: k in caches[AppShellCache] && caches[AppShellCache][k] == shell[k])
      ensures !installed ==> caches == Opened(old(caches), AppShellCache)
    {
      Open(AppShellCache);
      installed := AddAll(AppShellCache, PrecacheUrls, net);
      if installed {
        skipWaitingCalls := skipWaitingCalls + 1;
      }
    }

    /** The activate listener (service-worker.js:23-38): delete every cache
        whose name is not current, then claim the clients. */
    method Activate()
      modifies this`caches, this`clientsClaimed
      ensures caches.Keys == set n | n in old(caches) && n in CurrentCaches
      ensures forall n | n in caches :: caches[n] == old(caches)[n]
      ensures clientsClaimed
    {
      var names := caches.Keys;
      while names != {}
        invariant names <= old(caches).Keys
        invariant caches.Keys == set n | n in old(caches) && (n in names || n in CurrentCaches)
        invariant forall n | n in caches :: caches[n] == old(caches)[n]
        decreases names
      {
        var n :| n in names;
        if n !in CurrentCaches {
          caches := map m | m in caches && m != n :: caches[m];
        }
        names := names - {n};
      }
      clientsClaimed := true;
    }

    /** The message listener (service-worker.js:138-149). */
    method OnMessage(m: Message, net: string -> NetOutcome)
      modifies this`caches, this`fetchLog, this`skipWaitingCalls
      ensures skipWaitingCalls == old(skipWaitingCalls) + (if m.Data? && m.kind == "SKIP_WAITING" then 1 else 0)
      ensures !(m.Data? && m.kind == "CACHE_URLS") ==> caches == old(caches) && fetchLog == old(fetchLog)
      ensures m.Data? && m.kind == "CACHE_URLS" && m.urls.None? ==>
                caches == Opened(old(caches), WikiCache) && fetchLog == old(fetchLog)
      ensures m.Data? && m.kind == "CACHE_URLS" && m.urls.Some? ==>
                var urls := m.urls.value;
                && caches.Keys == old(caches).Keys + {WikiCache}
                && fetchLog == old(fetchLog) + urls
                && (forall n | n in old(caches) && n != WikiCache :: caches[n] == old(caches)[n])
                && (AddAllSucceeds(urls, net) ==> WikiCache in caches && forall u | u in urls :: u in caches[WikiCache] && caches[WikiCache][u] == net(u).response)
                && (AddAllSucceeds(urls, net) ==>
                      var wiki := Opened(old(caches), WikiCache)[WikiCache];
                      && caches[WikiCache].Keys == wiki.Keys + set u | u in urls
                      && forall k | k in wiki && k !in urls :: k in caches[WikiCache] && caches[WikiCache][k] == wiki[k])
                && (!AddAllSucceeds(urls, net) ==> caches == Opened(old(caches), WikiCache))
    {
      if m.Data? && m.kind == "SKIP_WAITING" {
        skipWaitingCalls := skipWaitingCalls + 1;
      }
      if m.Data? && m.kind == "CACHE_URLS" {
        Open(WikiCache);
        if m.urls.Some? {
          var _ := AddAll(WikiCache, m.urls.value, net);
        }
        // addAll(undefined) rejects with a TypeError before fetching anything
      }
    }
  }

  /** `event.data`: absent, or an object with a `type` and possibly `urls`. */
  datatype Message = NoData | Data(kind: string, urls: Option<seq<string>>)

  // ---------------------------------------------------------------------
  // Scenarios

  /** A cache-first miss that the network answers with 200 stores the
      response, and the next request for it is a hit that does not fetch. */
  method CacheFirstMissThenHit(key: string, resp: Response, later: NetOutcome)
    returns (first: Answer, second: Answer, fetches: seq<string>)
    requires resp.status == 200
    ensures first == Respond(resp) && second == Respond(resp)
    ensures fetches == [key]
  {
    var w := new Worker(map[]);
    first := w.CacheFirst(key, ImageCache, Ok(resp));
    second := w.CacheFirst(key, ImageCache, later);
    fetches := w.fetchLog;
  }

  /** Offline, network-first falls back to a stored entry, and without one
      it rejects. */
  method NetworkFirstOffline(key: string, stored: Response)
    returns (withEntry: Answer, withoutEntry: Answer)
    ensures withEntry == Respond(stored) && withoutEntry == Reject
  {
    var w := new Worker(map[RuntimeCache := map[key := stored]]);
    withEntry := w.NetworkFirst(key, RuntimeCache, Fail);
    var w2 := new Worker(map[]);
    withoutEntry := w2.NetworkFirst(key, RuntimeCache, Fail);
  }

  /** A non-200 response is returned by network-first and not stored, so an
      old entry stays. */
  method NetworkFirstKeepsEntryOnError(key: string, stored: Response, status: int)
    returns (a: Answer, kept: Response)
    requires status != 200
    ensures a == Respond(Response(status, "")) && kept == stored
  {
    var w := new Worker(map[RuntimeCache := map[key := stored]]);
    a := w.NetworkFirst(key, RuntimeCache, Ok(Response(status, "")));
    kept := w.caches[RuntimeCache][key];
  }

  /** Stale-while-revalidate serves the stored entry whatever the network
      does, and with no entry a failed fetch gives `undefined`. */
  method StaleWhileRevalidateServesStale(key: string, stored: Response, net: NetOutcome)
    returns (withEntry: Answer, withoutEntry: Answer)
    ensures withEntry == Respond(stored)
    ensures withoutEntry == if net.Ok? then Respond(net.response) else Undefined
  {
    var w := new Worker(map[RuntimeCache := map[key := stored]]);
    withEntry := w.StaleWhileRevalidate(key, RuntimeCache, net);
    var w2 := new Worker(map[]);
    withoutEntry := w2.StaleWhileRevalidate(key, RuntimeCache, net);
  }

  /** Activation over caches from an older generation deletes exactly the
      old ones. */
  method ActivateDeletesOldGeneration(old0: map<string, Response>, current: map<string, Response>)
    returns (names: set<string>)
    ensures names == {AppShellCache, RuntimeCache, WikiCache, ImageCache}
  {
    var w := new Worker(map["nestelia-v0" := old0, AppShellCache := current, RuntimeCache := current,
                            WikiCache := current, ImageCache := current]);
    w.Activate();
    names := w.caches.Keys;
  }
}
