/**
  The renderer artifact (`RendererArtifact.java`): the web fragment that
  hooks a renderer into a web application.  It keeps one render cache per
  application id and one dispatcher subscription per `id:path`, pre-fills
  the cache on request (`cache`, `isCached`), and warms the application up
  on start by rendering its start page once per language.

  The artifact's configuration (`RendererConfiguration`) and the
  repository's development flag are fields of `Config`; the cache provider
  is reduced to whether it exists and what kind of cache it creates.
*/
module Artifact {
  import opened Wrappers
  import opened Http
  import opened RenderCache
  import opened WebApps
  import opened Agents
  import Renderer

  datatype Config = Config(
    hasCacheProvider: bool,
    explorableCaches: bool,      // whether the provider's caches are ExplorableCache
    failingKeys: set<string>,    // keys on which the provider's caches raise on get
    putFailingKeys: set<string>, // keys on which they raise on put
    agents: Option<seq<string>>, // configured extra User-Agent regexes
    warmup: bool,
    development: bool)           // EAIResourceRepository.isDevelopment()

  /** The Java literal ".*\\?.*\\$prerender": any target with a query that mentions $prerender. */
  const DevelopmentPathRegex := ".*\\?.*\\$prerender"

  /** The warm-up renders as a site visitor would: ssr, no stylesheets. */
  const WarmUpOptions := Renderer.RenderOptions(None, None, true, false)

  function GetKey(id: string, path: string): (r: string)
    ensures |r| == |id| + 1 + |path|
  {
    id + ":" + path
  }

  function ConfiguredAgents(config: Config): (r: seq<AgentPattern>)
    ensures config.agents.None? ==> r == []
    ensures config.agents.Some? ==>
      |r| == |config.agents.value| && forall k :: 0 <= k < |r| ==> r[k] == Configured(config.agents.value[k])
  {
    if config.agents.None? then []
    else seq(|config.agents.value|, k requires 0 <= k < |config.agents.value| => Configured(config.agents.value[k]))
  }

  function EmptyState(config: Config): CacheState
  {
    CacheState(config.explorableCaches, map[], config.failingKeys, config.putFailingKeys)
  }

  // ------------------------------------------------------ cache pre-fill

  /** The request `calculateCache` renders: a bare GET of the URL. */
  function CalculateCacheRequest(url: Uri): HttpRequest
  {
    HttpRequest("GET", url.text, Some(EmptyPart([Header("Host", ValueOrEmpty(url.host)), Header("Content-Length", "0")])))
  }

  function CalculateCache(env: Renderer.Env, app: WebApplication, url: Uri): Result<Bytes, int>
  {
    Renderer.ExecuteAsBytes(env, app, CalculateCacheRequest(url), Renderer.BotOptions)
  }

  /** `cache()` on one cache's state; every exception is swallowed, so a
      failure leaves the state as it was. */
  function CacheSpec(st: CacheState, key: string, lastModified: Option<int>, recalculated: Result<Bytes, int>, now: int): CacheState
  {
    if st.explorable then
      match EntryOf(st, key)
      case Some(e) =>
        if lastModified.Some? && lastModified.value > e.lastModified && recalculated.Success? && key !in st.putFailing
        then st.(entries := st.entries[key := Entry(recalculated.value, now)])
        else st
      case None => PutIfRendered(st, key, recalculated, now)
    else
      match Lookup(st, key)
      case Success(None) => PutIfRendered(st, key, recalculated, now)
      case _ => st
  }

  function PutIfRendered(st: CacheState, key: string, recalculated: Result<Bytes, int>, now: int): CacheState
  {
    if recalculated.Failure? then st
    else match Store(st, key, recalculated.value, now)
      case Success(after) => after
      case Failure(_) => st
  }

  /** `isCached` on a cache's state, None standing for no cache. */
  predicate CachedIn(st: Option<CacheState>, key: string)
  {
    st.Some? &&
    if st.value.explorable then key in st.value.entries
    else Lookup(st.value, key).Success? && Lookup(st.value, key).value.Some?
  }

  // ---------------------------------------------------------------- warm-up

  /** The request `load` renders for one language (None: no language cookie). */
  function LoadRequest(app: WebApplication, language: Option<string>): HttpRequest
    requires app.virtualHost.Some?
  {
    var host := app.virtualHost.value.host;
    HttpRequest("GET", app.serverPath, Some(EmptyPart(
      [Header("Content-Length", "0"), Header("Host", if host.Some? then host.value else "localhost")]
      + (if language.Some? then [Header("Cookie", "language=" + language.value)] else []))))
  }

  /** The languages warmed up: each supported one, or a single pass without
      a language when there is no provider. */
  function WarmUpLanguages(app: WebApplication): (r: seq<Option<string>>)
    ensures app.languages.None? ==> r == [None]
    ensures app.languages.Some? ==>
      |r| == |app.languages.value| && forall k :: 0 <= k < |r| ==> r[k] == Some(app.languages.value[k])
  {
    if app.languages.None? then [None]
    else seq(|app.languages.value|, k requires 0 <= k < |app.languages.value| => Some(app.languages.value[k]))
  }

  /** The loads in order; the first failing render aborts the rest. */
  function LoadAll(env: Renderer.Env, app: WebApplication, languages: seq<Option<string>>): Result<(), int>
    requires app.virtualHost.Some?
  {
    if |languages| == 0 then Success(())
    else match Renderer.Execute(env, app, LoadRequest(app, languages[0]), WarmUpOptions)
      case Failure(status) => Failure(status)
      case Success(_) => LoadAll(env, app, languages[1..])
  }

  predicate WarmsUp(config: Config, app: WebApplication)
  {
    !config.development && config.warmup && app.virtualHost.Some?
  }

  // -------------------------------------------------------------- lemmas

  /** `cache()` touches no key but the one it is given. */
  lemma CacheSpecOtherKeys(st: CacheState, key: string, lastModified: Option<int>, recalculated: Result<Bytes, int>, now: int, other: string)
    requires other != key
    ensures var r := CacheSpec(st, key, lastModified, recalculated, now);
      r.explorable == st.explorable && r.failing == st.failing && r.putFailing == st.putFailing
      && (other in r.entries <==> other in st.entries)
      && (other in st.entries ==> r.entries[other] == st.entries[other])
  {
  }

  /** After `cache()` the URL is cached, unless its render failed or the
      provider raised on reading or writing it; a URL that was not cached
      holds the freshly rendered bytes, stamped with the write time. */
  lemma CacheSpecCaches(st: CacheState, key: string, lastModified: Option<int>, recalculated: Result<Bytes, int>, now: int)
    requires recalculated.Success? && key !in st.failing && key !in st.putFailing
    ensures key in CacheSpec(st, key, lastModified, recalculated, now).entries
    ensures CachedIn(Some(CacheSpec(st, key, lastModified, recalculated, now)), key)
    ensures key !in st.entries ==>
      CacheSpec(st, key, lastModified, recalculated, now).entries[key] == Entry(recalculated.value, now)
  {
  }

  /** Explorable caches: an entry is re-rendered only when the page changed
      strictly after it was written; otherwise nothing changes. */
  lemma ExplorableStaleness(st: CacheState, key: string, lastModified: Option<int>, recalculated: Result<Bytes, int>, now: int)
    requires st.explorable && key in st.entries
    ensures lastModified.None? || lastModified.value <= st.entries[key].lastModified
            ==> CacheSpec(st, key, lastModified, recalculated, now) == st
    ensures lastModified.Some? && lastModified.value > st.entries[key].lastModified
            && recalculated.Success? && key !in st.putFailing
            ==> CacheSpec(st, key, lastModified, recalculated, now).entries[key] == Entry(recalculated.value, now)
  {
  }

  /** Plain caches ignore the modification time: a present entry is never replaced. */
  lemma PlainIgnoresLastModified(st: CacheState, key: string, a: Option<int>, b: Option<int>, recalculated: Result<Bytes, int>, now: int)
    requires !st.explorable
    ensures CacheSpec(st, key, a, recalculated, now) == CacheSpec(st, key, b, recalculated, now)
    ensures key in st.entries ==> CacheSpec(st, key, a, recalculated, now) == st
  {
  }

  /** A failed render never disturbs what is cached. */
  lemma FailedRenderKeepsCache(st: CacheState, key: string, lastModified: Option<int>, status: int, now: int)
    ensures CacheSpec(st, key, lastModified, Failure(status), now) == st
  {
  }

  /** An explorable cache reports a key it holds even where reading it would
      raise; a plain cache reports such a key as not cached. */
  lemma CachedInFailingKey(st: CacheState, key: string)
    requires key in st.entries && key in st.failing
    ensures CachedIn(Some(st), key) <==> st.explorable
  {
  }

  /** An entry pre-filled by `cache()` is what a crawler asking for that URI
      is served; for a URL that was not cached, that is the page
      `calculateCache` rendered. */
  lemma PrefilledEntryIsServed(env: Renderer.Env, app: WebApplication, agents: seq<AgentPattern>, pathRegex: Option<string>,
                               st: CacheState, url: Uri, lastModified: Option<int>, now: int,
                               request: HttpRequest, later: int)
    requires CalculateCache(env, app, url).Success? && url.text !in st.failing && url.text !in st.putFailing
    requires !Renderer.IsBridgeRequest(request) && Renderer.Gate(env.matches, agents, pathRegex, request)
    requires env.uriOf(request, IsSecure(app)) == Some(url.text)
    ensures var after := CacheSpec(st, url.text, lastModified, CalculateCache(env, app, url), now);
      Renderer.HandleSpec(env, app, agents, pathRegex, Some(after), request, later)
      == (Renderer.Respond(Renderer.WrapIntoResponse(after.entries[url.text].value)), Some(after))
    ensures url.text !in st.entries ==>
      var after := CacheSpec(st, url.text, lastModified, CalculateCache(env, app, url), now);
      Renderer.HandleSpec(env, app, agents, pathRegex, Some(after), request, later)
      == (Renderer.Respond(Renderer.WrapIntoResponse(CalculateCache(env, app, url).value)), Some(after))
  {
    CacheSpecCaches(st, url.text, lastModified, CalculateCache(env, app, url), now);
  }

  /** In a key built from a colon-free id the first colon is the separator. */
  lemma FirstColon(id: string, path: string)
    requires ':' !in id
    ensures GetKey(id, path)[|id|] == ':'
    ensures forall j :: 0 <= j < |id| ==> GetKey(id, path)[j] != ':'
  {
    assert forall j :: 0 <= j < |id| ==> GetKey(id, path)[j] == id[j];
  }

  /** With colon-free application ids, keys of different applications or
      different paths never collide. */
  lemma GetKeyInjective(a: string, p: string, b: string, q: string)
    requires ':' !in a && ':' !in b
    requires GetKey(a, p) == GetKey(b, q)
    ensures a == b && p == q
  {
    FirstColon(a, p);
    FirstColon(b, q);
    assert |a| == |b|;
    assert a == GetKey(a, p)[..|a|];
    assert b == GetKey(b, q)[..|b|];
    assert p == GetKey(a, p)[|a| + 1..];
    assert q == GetKey(b, q)[|b| + 1..];
  }

  /** Keys of one application are distinct per path, whatever its id contains. */
  lemma GetKeySameId(id: string, p: string, q: string)
    requires GetKey(id, p) == GetKey(id, q)
    ensures p == q
  {
    assert p == GetKey(id, p)[|id| + 1..];
    assert q == GetKey(id, q)[|id| + 1..];
  }

  /** `stop` removes the key `id:path` from the cache map, but caches live
      under the bare id: the application's cache survives a stop. */
  lemma StopKeepsApplicationCache(caches: map<string, Cache>, id: string, path: string)
    requires id in caches
    ensures id in caches - {GetKey(id, path)} && (caches - {GetKey(id, path)})[id] == caches[id]
  {
    assert GetKey(id, path) != id;
  }

  /** The configured regexes as agent patterns: one scan finds the first
      regex that matches, and nothing exactly when none does. */
  lemma ConfiguredFirstMatch(matches: (string, string) -> bool, config: Config, userAgent: string)
    ensures var r := FirstMatch(matches, ConfiguredAgents(config), userAgent);
      && (r.Some? <==> (config.agents.Some? &&
            exists k :: 0 <= k < |config.agents.value| && matches(userAgent, config.agents.value[k])))
      && (r.Some? ==>
            && config.agents.Some? && r.value < |config.agents.value|
            && matches(userAgent, config.agents.value[r.value])
            && forall k :: 0 <= k < r.value ==> !matches(userAgent, config.agents.value[k]))
  {
    var extra := ConfiguredAgents(config);
    if config.agents.Some? {
      assert forall k :: 0 <= k < |extra| ==>
        (PatternMatches(matches, extra[k], userAgent) <==> matches(userAgent, config.agents.value[k]));
    }
  }

  /** With the configured regexes added after the defaults, a User-Agent no
      default signature catches is rendered exactly when a configured regex
      matches it, and the scan stops at the first configured one that does. */
  lemma ConfiguredAgentsDecide(matches: (string, string) -> bool, defaults: seq<AgentPattern>, config: Config, userAgent: string)
    requires FirstMatch(matches, defaults, userAgent).None?
    ensures var r := FirstMatch(matches, defaults + ConfiguredAgents(config), userAgent);
      && (r.Some? <==> (config.agents.Some? &&
            exists k :: 0 <= k < |config.agents.value| && matches(userAgent, config.agents.value[k])))
      && (r.Some? ==>
            && config.agents.Some? && |defaults| <= r.value < |defaults| + |config.agents.value|
            && matches(userAgent, config.agents.value[r.value - |defaults|])
            && forall k :: 0 <= k < r.value - |defaults| ==> !matches(userAgent, config.agents.value[k]))
  {
    FirstMatchAfter(matches, defaults, ConfiguredAgents(config), userAgent);
    ConfiguredFirstMatch(matches, config, userAgent);
  }

  /** A language provider listing no languages means no warm-up render at all,
      while a missing provider means one. */
  lemma WarmUpCount(app: WebApplication)
    ensures app.languages == Some([]) ==> WarmUpLanguages(app) == []
    ensures |WarmUpLanguages(app)| == (if app.languages.None? then 1 else |app.languages.value|)
  {
  }

  /** Every warm-up load is a GET of the server path with a zero length, a
      Host and the language cookie exactly when there is a language. */
  lemma LoadRequestShape(app: WebApplication, language: Option<string>)
    requires app.virtualHost.Some?
    ensures var r := LoadRequest(app, language);
      var hs := r.content.value.headers;
      && r.verb == "GET" && r.target == app.serverPath && r.content.value.EmptyPart?
      && GetHeader(hs, "Content-Length") == Some(Header("Content-Length", "0"))
      && GetHeader(hs, "Host").Some?
      && GetHeader(hs, "Host").value.value == (if app.virtualHost.value.host.Some? then app.virtualHost.value.host.value else "localhost")
      && (HasHeader(hs, "Cookie") <==> language.Some?)
      && (language.Some? ==> GetHeader(hs, "Cookie") == Some(Header("Cookie", "language=" + language.value)))
      && !Renderer.IsBridgeRequest(r)
  {
    var hs := LoadRequest(app, language).content.value.headers;
    assert Named(hs[0], "Content-Length");
    assert !Named(hs[0], "Host") && Named(hs[1], "Host");
    assert hs[1..][0] == hs[1];
    assert !Named(hs[0], "Cookie") && !Named(hs[1], "Cookie");
    assert !Named(hs[0], Renderer.MarkerHeader) && !Named(hs[1], Renderer.MarkerHeader);
    if language.Some? {
      assert Named(hs[2], "Cookie") && !Named(hs[2], Renderer.MarkerHeader);
      assert hs[1..][1..][0] == hs[2];
    } else {
      assert |hs| == 2;
    }
  }

  lemma {:induction false} LoadAllFailsWithFirst(env: Renderer.Env, app: WebApplication, languages: seq<Option<string>>, i: nat)
    requires app.virtualHost.Some?
    requires i < |languages|
    requires forall k :: 0 <= k < i ==> Renderer.Execute(env, app, LoadRequest(app, languages[k]), WarmUpOptions).Success?
    requires Renderer.Execute(env, app, LoadRequest(app, languages[i]), WarmUpOptions).Failure?
    ensures LoadAll(env, app, languages) == Failure(Renderer.Execute(env, app, LoadRequest(app, languages[i]), WarmUpOptions).error)
  {
    if i > 0 {
      LoadAllFailsWithFirst(env, app, languages[1..], i - 1);
    }
  }

  lemma {:induction false} LoadAllSucceeds(env: Renderer.Env, app: WebApplication, languages: seq<Option<string>>)
    requires app.virtualHost.Some?
    ensures LoadAll(env, app, languages).Success? <==>
      forall k :: 0 <= k < |languages| ==> Renderer.Execute(env, app, LoadRequest(app, languages[k]), WarmUpOptions).Success?
  {
    if |languages| > 0 {
      LoadAllSucceeds(env, app, languages[1..]);
      assert forall k :: 1 <= k < |languages| ==> languages[k] == languages[1..][k - 1];
    }
  }

  // --------------------------------------------------------- the artifact

  class RendererArtifact {
    const config: Config
    var caches: map<string, Cache>
    var subscriptions: map<string, Renderer.Renderer>
    /** The renderers the applications' dispatchers still deliver to. */
    var live: set<Renderer.Renderer>

    ghost predicate Valid()
      reads this
    {
      && (!config.hasCacheProvider ==> caches == map[])
      && (forall a, b :: a in caches && b in caches && a != b ==> caches[a] != caches[b])
    }

    constructor (config: Config)
      ensures Valid()
      ensures this.config == config && caches == map[] && subscriptions == map[] && live == {}
    {
      this.config := config;
      caches := map[];
      subscriptions := map[];
      live := {};
    }

    function IsStarted(app: WebApplication, path: string): bool
      reads this
    {
      GetKey(app.id, path) in subscriptions
    }

    /** At most one cache per application id, created on first use. */
    method GetCache(app: WebApplication) returns (c: Cache?)
      requires Valid()
      modifies this`caches
      ensures Valid()
      ensures c == (if app.id in caches then caches[app.id] else null)
      ensures app.id in old(caches) || !config.hasCacheProvider ==> caches == old(caches)
      ensures app.id !in old(caches) && config.hasCacheProvider ==>
        c != null && fresh(c) && c.State() == EmptyState(config) && caches == old(caches)[app.id := c]
    {
      if app.id !in caches && config.hasCacheProvider {
        var created := new Cache(config.explorableCaches, config.failingKeys, config.putFailingKeys);
        caches := caches[app.id := created];
      }
      c := if app.id in caches then caches[app.id] else null;
    }

    method IsCached(app: WebApplication, url: Uri) returns (r: bool)
      requires Valid()
      modifies this`caches
      ensures Valid()
      ensures app.id in old(caches) || !config.hasCacheProvider ==> caches == old(caches)
      ensures app.id !in old(caches) && config.hasCacheProvider ==>
        app.id in caches && fresh(caches[app.id]) && caches == old(caches)[app.id := caches[app.id]]
      ensures app.id !in old(caches) && config.hasCacheProvider ==> caches[app.id].State() == EmptyState(config)
      ensures r == CachedIn(if app.id in old(caches) then Some(old(caches[app.id].State()))
                            else if config.hasCacheProvider then Some(EmptyState(config)) else None, url.text)
    {
      var cache := GetCache(app);
      if cache == null {
        r := false;
      } else if cache.explorable {
        var entry := cache.GetEntry(url.text);
        r := entry.Some?;
      } else {
        var got := cache.Get(url.text);
        r := got.Success? && got.value.Some?;
      }
    }

    /** `cache()`: pre-fill or refresh one URL of an application. */
    method CacheUrl(env: Renderer.Env, app: WebApplication, url: Uri, lastModified: Option<int>, now: int)
      requires Valid()
      modifies this`caches, caches.Values
      ensures Valid()
      ensures app.id in caches <==> app.id in old(caches) || config.hasCacheProvider
      ensures caches.Keys == old(caches).Keys + (if config.hasCacheProvider then {app.id} else {})
      ensures app.id in old(caches) || !config.hasCacheProvider ==> caches == old(caches)
      ensures app.id !in old(caches) && config.hasCacheProvider ==>
        app.id in caches && fresh(caches[app.id]) && caches == old(caches)[app.id := caches[app.id]]
      ensures app.id in caches ==> caches[app.id].State() == CacheSpec(
        if app.id in old(caches) then old(caches[app.id].State()) else EmptyState(config),
        url.text, lastModified, CalculateCache(env, app, url), now)
      ensures forall id :: id in old(caches) && id != app.id ==>
        id in caches && caches[id] == old(caches[id]) && caches[id].State() == old(caches[id].State())
    {
      var cache := GetCache(app);
      if cache == null {
        return;
      }
      var key := url.text;
      if cache.explorable {
        var entry := cache.GetEntry(key);
        if entry.Some? && lastModified.Some? && lastModified.value > entry.value.lastModified {
          var refreshed := cache.Refresh(key, CalculateCache(env, app, url), now);
        } else if entry.None? {
          var rendered := CalculateCache(env, app, url);
          if rendered.Success? {
            var stored := cache.Put(key, rendered.value, now);
          }
        }
      } else {
        var got := cache.Get(key);
        if got.Success? && got.value.None? {
          var rendered := CalculateCache(env, app, url);
          if rendered.Success? {
            var stored := cache.Put(key, rendered.value, now);
          }
        }
      }
    }

    /** `start`: a renderer with the defaults plus the configured agents is
        subscribed under `id:path`, then the application is warmed up. */
    method Start(env: Renderer.Env, app: WebApplication, path: string) returns (renderer: Renderer.Renderer, warm: Result<(), int>)
      requires Valid()
      modifies this`caches, this`subscriptions, this`live
      ensures Valid()
      ensures fresh(renderer) && renderer.Valid()
      ensures renderer.app == app
      ensures renderer.cache == (if app.id in caches then caches[app.id] else null)
      ensures app.id in old(caches) || !config.hasCacheProvider ==> caches == old(caches)
      ensures app.id !in old(caches) && config.hasCacheProvider ==>
        app.id in caches && fresh(caches[app.id]) && caches == old(caches)[app.id := caches[app.id]]
      ensures app.id !in old(caches) && config.hasCacheProvider ==> caches[app.id].State() == EmptyState(config)
      ensures renderer.agents == DefaultAgents + ConfiguredAgents(config)
      ensures renderer.pathRegex == (if config.development then Some(DevelopmentPathRegex) else None)
      ensures subscriptions == old(subscriptions)[GetKey(app.id, path) := renderer]
      ensures live == old(live) + {renderer}
      ensures IsStarted(app, path)
      ensures warm == (if WarmsUp(config, app) then LoadAll(env, app, WarmUpLanguages(app)) else Success(()))
    {
      var cache := GetCache(app);
      renderer := new Renderer.Renderer(app, cache);
      if config.development {
        renderer.SetPathRegex(DevelopmentPathRegex);
      }
      if config.agents.Some? {
        renderer.AddAgents(ConfiguredAgents(config));
      } else {
        assert renderer.agents == DefaultAgents + [];
      }
      live := live + {renderer};
      subscriptions := subscriptions[GetKey(app.id, path) := renderer];

      warm := Success(());
      if WarmsUp(config, app) {
        var languages := WarmUpLanguages(app);
        var i := 0;
        while i < |languages|
          invariant 0 <= i <= |languages|
          invariant LoadAll(env, app, languages) == LoadAll(env, app, languages[i..])
        {
          var loaded := Renderer.Execute(env, app, LoadRequest(app, languages[i]), WarmUpOptions);
          if loaded.Failure? {
            warm := Failure(loaded.error);
            return;
          }
          assert languages[i..][1..] == languages[i + 1..];
          i := i + 1;
        }
      }
    }

    /** `stop`: the subscription under `id:path` is cancelled and forgotten. */
    method Stop(app: WebApplication, path: string)
      requires Valid()
      modifies this`subscriptions, this`live, this`caches
      ensures Valid()
      ensures var key := GetKey(app.id, path);
        && subscriptions == old(subscriptions) - {key}
        && live == (if key in old(subscriptions) then old(live) - {old(subscriptions)[key]} else old(live))
        && caches == old(caches) - {key}
      ensures !IsStarted(app, path)
      ensures app.id in old(caches) ==> app.id in caches && caches[app.id] == old(caches)[app.id]
    {
      var key := GetKey(app.id, path);
      if key in subscriptions {
        live := live - {subscriptions[key]};
        subscriptions := subscriptions - {key};
      }
      if key in caches {
        caches := caches - {key};
      }
      assert key != app.id;
    }
  }
}
