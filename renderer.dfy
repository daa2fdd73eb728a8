/**
  The request handler that serves pre-rendered pages to crawlers
  (`Renderer.java`): the bot gate, the cache-or-render coordinator, the
  wrapping of rendered bytes into a response, and the static entry points
  that drive the headless browser.

  The browser, `HTTPUtils.getURI`, the regular-expression engine for
  configured patterns and UTF-8 encoding are parameters (`Env`): the model
  says what is done with their answers, not how they are computed.
*/
module Renderer {
  import opened Wrappers
  import opened Http
  import opened Decimal
  import opened Agents
  import opened Cdata
  import opened RenderCache
  import opened WebApps

  /** The loop-prevention header: present on every request the bridge issues. */
  const MarkerHeader := "Nabu-Renderer"

  /** `HTTPCodes.getMessage(200)`, used for both the 200 and the 204 response. */
  const OkMessage := "OK"

  datatype RenderOptions = RenderOptions(token: Option<Token>, javascript: Option<string>, ssr: bool, css: bool)

  /** The bot path renders without credentials, without injected script,
      without the ssr marker and without stylesheets. */
  const BotOptions := RenderOptions(None, None, false, false)

  /** What the browser is asked to load: the page URL, the inbound headers
      as additional request headers, and how its connection is set up. */
  datatype EngineRequest = EngineRequest(url: string, headers: seq<Header>, options: RenderOptions)

  /** What the browser ends up with after the page and its background scripts. */
  datatype Page =
    | HtmlPage(html: string)
    | TextPage(text: string)
    | XmlPage(xml: string)
    | UnexpectedPage(bytes: Bytes)
    | OtherPage
    | EngineFailure(status: int)   // an HTTPException with this status, 500 for any other exception

  datatype Env = Env(
    matches: (string, string) -> bool,       // String.matches(input, regex)
    uriOf: (HttpRequest, bool) -> Option<string>,  // HTTPUtils.getURI(request, secure).toString(), None when it raises
    engine: EngineRequest -> Page,
    utf8: string -> Bytes)

  // ------------------------------------------------------------ rendering

  /** `executeAsBytes`: the status of the HTTPException raised, or the page bytes. */
  function ExecuteAsBytes(env: Env, app: WebApplication, request: HttpRequest, options: RenderOptions): (r: Result<Bytes, int>)
  {
    if app.virtualHost.None? then Failure(500)        // the formatter reads the virtual host's server
    else if request.content.None? then Failure(500)  // the accepted languages are read from the content
    else match env.uriOf(request, IsSecure(app))
      case None => Failure(500)
      case Some(url) =>
        match env.engine(EngineRequest(url, request.content.value.headers, options))
        case HtmlPage(s) => Success(env.utf8(StripCdata(s)))
        case TextPage(s) => Success(env.utf8(StripCdata(s)))
        case XmlPage(s) => Success(env.utf8(StripCdata(s)))
        case UnexpectedPage(b) => Success(b)
        case OtherPage => Failure(502)
        case EngineFailure(status) => Failure(status)
  }

  /** `wrapIntoResponse`. */
  function WrapIntoResponse(bytes: Bytes): HttpResponse
  {
    if |bytes| == 0 then
      HttpResponse(204, OkMessage, Some(EmptyPart([Header("Content-Length", "0")])))
    else
      HttpResponse(200, OkMessage, Some(ContentPart(
        [Header("Content-Length", NatToString(|bytes|)), Header("Content-Type", "text/html")],
        Some(bytes))))
  }

  /** No bytes: 204 with a zero length and no body.  Otherwise: 200, an HTML
      content type, the bytes as body and a length that reads back as their count. */
  lemma WrapIntoResponseContract(bytes: Bytes)
    ensures var r := WrapIntoResponse(bytes);
      && r.content.Some?
      && (r.code == 204 <==> |bytes| == 0)
      && (r.code == 200 <==> |bytes| > 0)
      && GetHeader(r.content.value.headers, "Content-Length").Some?
      && (|bytes| == 0 ==> r.content.value.EmptyPart?
                           && GetHeader(r.content.value.headers, "Content-Length") == Some(Header("Content-Length", "0"))
                           && GetHeader(r.content.value.headers, "Content-Type").None?)
      && (|bytes| > 0 ==> r.content.value == ContentPart(r.content.value.headers, Some(bytes))
                          && GetHeader(r.content.value.headers, "Content-Type") == Some(Header("Content-Type", "text/html")))
      && var length := GetHeader(r.content.value.headers, "Content-Length").value.value;
         (forall i :: 0 <= i < |length| ==> IsDigit(length[i])) && StringToNat(length) == |bytes|
  {
    var r := WrapIntoResponse(bytes);
    var hs := r.content.value.headers;
    assert Named(hs[0], "Content-Length");
    if |bytes| == 0 {
      assert GetHeader(hs, "Content-Length") == Some(hs[0]);
      assert StringToNat("0") == 0 by { assert "0"[..0] == ""; }
      assert !Named(hs[0], "Content-Type");
    } else {
      assert !Named(hs[0], "Content-Type") && Named(hs[1], "Content-Type");
      assert FirstNamed(hs, "Content-Type") == Some(1) by {
        assert !Named(hs[0], "Content-Type");
        assert hs[1..][0] == hs[1];
      }
      StringToNatOfNatToString(|bytes|);
    }
  }

  /** `Renderer.execute`: render, then wrap. */
  function Execute(env: Env, app: WebApplication, request: HttpRequest, options: RenderOptions): (r: Result<HttpResponse, int>)
    ensures r.Success? <==> ExecuteAsBytes(env, app, request, options).Success?
    ensures r.Success? ==> r.value == WrapIntoResponse(ExecuteAsBytes(env, app, request, options).value)
    ensures r.Failure? ==> r.error == ExecuteAsBytes(env, app, request, options).error
  {
    match ExecuteAsBytes(env, app, request, options)
    case Success(b) => Success(WrapIntoResponse(b))
    case Failure(s) => Failure(s)
  }

  /** What `execute` answers: the render's own status when it fails;
      otherwise 204 with a zero length exactly when the page has no bytes,
      and else 200 with the rendered bytes as body and a Content-Length
      that reads back as their count. */
  lemma ExecuteResponds(env: Env, app: WebApplication, request: HttpRequest, options: RenderOptions)
    ensures var bytes := ExecuteAsBytes(env, app, request, options);
      var r := Execute(env, app, request, options);
      && (r.Failure? <==> bytes.Failure?)
      && (bytes.Failure? ==> r.error == bytes.error)
      && (bytes.Success? ==>
            r.value.content.Some? &&
            var hs := r.value.content.value.headers;
            && (r.value.code == 204 <==> |bytes.value| == 0)
            && (r.value.code == 200 <==> |bytes.value| > 0)
            && (|bytes.value| == 0 ==>
                  r.value.content.value.EmptyPart? && GetHeader(hs, "Content-Length") == Some(Header("Content-Length", "0")))
            && (|bytes.value| > 0 ==> r.value.content.value == ContentPart(hs, Some(bytes.value)))
            && GetHeader(hs, "Content-Length").Some?
            && StringToNat(GetHeader(hs, "Content-Length").value.value) == |bytes.value|)
  {
    var bytes := ExecuteAsBytes(env, app, request, options);
    if bytes.Success? {
      WrapIntoResponseContract(bytes.value);
    }
  }

  /** Text pages are cleaned of their CDATA markers before they are encoded. */
  lemma HtmlPagesAreStripped(env: Env, app: WebApplication, request: HttpRequest, options: RenderOptions, url: string)
    requires app.virtualHost.Some? && request.content.Some?
    requires env.uriOf(request, IsSecure(app)) == Some(url)
    requires env.engine(EngineRequest(url, request.content.value.headers, options)).HtmlPage?
    ensures var html := env.engine(EngineRequest(url, request.content.value.headers, options)).html;
      ExecuteAsBytes(env, app, request, options) == Success(env.utf8(StripCdata(html)))
      && Subsequence(StripCdata(html), html)
  {
    StripCdataKeepsOrder(env.engine(EngineRequest(url, request.content.value.headers, options)).html);
  }

  // ------------------------------------------------------------- the gate

  /** A request issued by the render bridge (or anything else carrying the marker). */
  predicate IsBridgeRequest(request: HttpRequest)
  {
    request.content.Some? && HasHeader(request.content.value.headers, MarkerHeader)
  }

  predicate PathForced(matches: (string, string) -> bool, pathRegex: Option<string>, request: HttpRequest)
  {
    pathRegex.Some? && matches(request.target, pathRegex.value)
  }

  function UserAgent(request: HttpRequest): Option<string>
  {
    if request.content.None? then None
    else
      var h := GetHeader(request.content.value.headers, "User-Agent");
      if h.None? then None else Some(h.value.value)
  }

  predicate AgentForced(matches: (string, string) -> bool, agents: seq<AgentPattern>, request: HttpRequest)
  {
    UserAgent(request).Some? && FirstMatch(matches, agents, UserAgent(request).value).Some?
  }

  /** Whether a request that is not a bridge request gets rendered. */
  predicate Gate(matches: (string, string) -> bool, agents: seq<AgentPattern>, pathRegex: Option<string>, request: HttpRequest)
  {
    PathForced(matches, pathRegex, request) || AgentForced(matches, agents, request)
  }

  /** Fail closed: without a User-Agent, only the path can force a render. */
  lemma NoUserAgentOnlyPath(matches: (string, string) -> bool, agents: seq<AgentPattern>, pathRegex: Option<string>, request: HttpRequest)
    requires request.content.None? || !HasHeader(request.content.value.headers, "User-Agent")
    ensures Gate(matches, agents, pathRegex, request) <==> PathForced(matches, pathRegex, request)
  {
  }

  /** A typical Googlebot request is rendered by the built-in rules. */
  lemma GooglebotIsRendered(matches: (string, string) -> bool, extra: seq<AgentPattern>, request: HttpRequest)
    requires request.content.Some?
    requires request.content.value.headers == [Header("User-Agent", GooglebotAgent)]
    ensures Gate(matches, DefaultAgents + extra, None, request)
    ensures !IsBridgeRequest(request)
  {
    var hs := request.content.value.headers;
    assert Named(hs[0], "User-Agent");
    assert !Named(hs[0], MarkerHeader);
    GooglebotScenario(matches, extra);
  }

  // ------------------------------------------------------ the coordinator

  datatype HandleOutcome = Pass | Respond(response: HttpResponse) | Fail(status: int)

  /** `handle` as a function of the renderer's configuration and its cache:
      the outcome and the cache afterwards. */
  function HandleSpec(env: Env, app: WebApplication, agents: seq<AgentPattern>, pathRegex: Option<string>,
                      cache: Option<CacheState>, request: HttpRequest, now: int): (HandleOutcome, Option<CacheState>)
  {
    if IsBridgeRequest(request) || !Gate(env.matches, agents, pathRegex, request) then (Pass, cache)
    else match env.uriOf(request, IsSecure(app))
      case None => (Fail(500), cache)
      case Some(key) =>
        var cached := if cache.None? then Success(None) else Lookup(cache.value, key);
        if cached.Failure? then (Fail(500), cache)
        else if cached.value.Some? then (Respond(WrapIntoResponse(cached.value.value)), cache)
        else match ExecuteAsBytes(env, app, request, BotOptions)
          case Failure(s) => (Fail(s), cache)
          case Success(b) =>
            if cache.None? then (Respond(WrapIntoResponse(b)), None)
            else match Store(cache.value, key, b, now)
              case Failure(_) => (Fail(500), cache)
              case Success(st) => (Respond(WrapIntoResponse(b)), Some(st))
  }

  /** Loop prevention: a request carrying the marker passes through,
      whatever its path and User-Agent, and the cache is not touched. */
  lemma MarkerAlwaysPasses(env: Env, app: WebApplication, agents: seq<AgentPattern>, pathRegex: Option<string>,
                           cache: Option<CacheState>, request: HttpRequest, now: int)
    requires request.content.Some?
    requires HasHeader(request.content.value.headers, MarkerHeader)
    ensures HandleSpec(env, app, agents, pathRegex, cache, request, now) == (Pass, cache)
  {
  }

  /** `handle` lets a request through exactly when it is a bridge request, or
      neither its target matches the path regex nor it has a User-Agent that
      some agent pattern matches. */
  lemma PassIff(env: Env, app: WebApplication, agents: seq<AgentPattern>, pathRegex: Option<string>,
                cache: Option<CacheState>, request: HttpRequest, now: int)
    ensures HandleSpec(env, app, agents, pathRegex, cache, request, now).0 == Pass <==>
      || IsBridgeRequest(request)
      || (&& !PathForced(env.matches, pathRegex, request)
          && (UserAgent(request).None? ||
              forall k :: 0 <= k < |agents| ==> !PatternMatches(env.matches, agents[k], UserAgent(request).value)))
  {
  }

  /** A hit is served from the cache: the browser is not consulted (any other
      browser gives the same outcome) and the cache is left as it was. */
  lemma HitDoesNotRender(env: Env, other: EngineRequest -> Page, app: WebApplication, agents: seq<AgentPattern>,
                         pathRegex: Option<string>, cache: CacheState, request: HttpRequest, now: int, key: string)
    requires !IsBridgeRequest(request) && Gate(env.matches, agents, pathRegex, request)
    requires env.uriOf(request, IsSecure(app)) == Some(key)
    requires Lookup(cache, key).Success? && Lookup(cache, key).value.Some?
    ensures HandleSpec(env, app, agents, pathRegex, Some(cache), request, now)
         == (Respond(WrapIntoResponse(cache.entries[key].value)), Some(cache))
    ensures HandleSpec(env.(engine := other), app, agents, pathRegex, Some(cache), request, now)
         == HandleSpec(env, app, agents, pathRegex, Some(cache), request, now)
  {
  }

  /** A miss renders with the bot options and stores the bytes under the
      request's canonical URI; the identical request that follows is a hit
      with byte-identical output, however the browser would answer it. */
  lemma MissThenHit(env: Env, other: EngineRequest -> Page, app: WebApplication, agents: seq<AgentPattern>,
                    pathRegex: Option<string>, cache: CacheState, request: HttpRequest, now: int, later: int, key: string)
    requires !IsBridgeRequest(request) && Gate(env.matches, agents, pathRegex, request)
    requires env.uriOf(request, IsSecure(app)) == Some(key)
    requires key !in cache.failing && key !in cache.putFailing && key !in cache.entries
    requires ExecuteAsBytes(env, app, request, BotOptions).Success?
    ensures var b := ExecuteAsBytes(env, app, request, BotOptions).value;
      var (first, after) := HandleSpec(env, app, agents, pathRegex, Some(cache), request, now);
      && first == Respond(WrapIntoResponse(b))
      && after == Some(cache.(entries := cache.entries[key := Entry(b, now)]))
      && HandleSpec(env.(engine := other), app, agents, pathRegex, after, request, later) == (first, after)
  {
    var b := ExecuteAsBytes(env, app, request, BotOptions).value;
    var st := cache.(entries := cache.entries[key := Entry(b, now)]);
    assert Store(cache, key, b, now) == Success(st);
    StoreThenLookup(cache, key, b, now);
  }

  /** A miss whose render succeeds but whose write to the cache raises
      answers 500, and the cache is left as it was. */
  lemma RenderThenPutFails(env: Env, app: WebApplication, agents: seq<AgentPattern>,
                           pathRegex: Option<string>, cache: CacheState, request: HttpRequest, now: int, key: string)
    requires !IsBridgeRequest(request) && Gate(env.matches, agents, pathRegex, request)
    requires env.uriOf(request, IsSecure(app)) == Some(key)
    requires key !in cache.failing && key !in cache.entries && key in cache.putFailing
    requires ExecuteAsBytes(env, app, request, BotOptions).Success?
    ensures HandleSpec(env, app, agents, pathRegex, Some(cache), request, now) == (Fail(500), Some(cache))
  {
  }

  /** A bot request whose canonical URI cannot be computed fails before the cache is consulted. */
  lemma BadUriFails(env: Env, app: WebApplication, agents: seq<AgentPattern>, pathRegex: Option<string>,
                    cache: Option<CacheState>, request: HttpRequest, now: int)
    requires !IsBridgeRequest(request) && Gate(env.matches, agents, pathRegex, request)
    requires env.uriOf(request, IsSecure(app)).None?
    ensures HandleSpec(env, app, agents, pathRegex, cache, request, now) == (Fail(500), cache)
  {
  }

  class Renderer {
    const app: WebApplication
    const cache: Cache?
    const secure: bool
    var agents: seq<AgentPattern>
    var pathRegex: Option<string>

    ghost predicate Valid()
      reads this
    {
      secure == IsSecure(app)
    }

    constructor (app: WebApplication, cache: Cache?)
      ensures Valid()
      ensures this.app == app && this.cache == cache
      ensures agents == DefaultAgents && pathRegex == None
    {
      this.app := app;
      this.cache := cache;
      agents := DefaultAgents;
      pathRegex := None;
      secure := IsSecure(app);
    }

    method SetPathRegex(regex: string)
      modifies this`pathRegex
      ensures pathRegex == Some(regex)
    {
      pathRegex := Some(regex);
    }

    /** `getAgents().addAll(...)`: additions go after what is there. */
    method AddAgents(extra: seq<AgentPattern>)
      modifies this`agents
      ensures agents == old(agents) + extra
    {
      agents := agents + extra;
    }

    function CacheView(): Option<CacheState>
      reads this, cache
    {
      if cache == null then None else Some(cache.State())
    }

    method Handle(env: Env, request: HttpRequest, now: int) returns (r: HandleOutcome)
      requires Valid()
      modifies cache
      ensures (r, CacheView()) == HandleSpec(env, app, agents, pathRegex, old(CacheView()), request, now)
    {
      if request.content.Some? && GetHeader(request.content.value.headers, MarkerHeader).Some? {
        return Pass;
      }
      var userAgent: Option<string> := None;
      var resolve := if pathRegex.None? then false else env.matches(request.target, pathRegex.value);
      if request.content.Some? && |agents| > 0 {
        var header := GetHeader(request.content.value.headers, "User-Agent");
        if header.Some? {
          var ua := header.value.value;
          userAgent := Some(ua);
          var i := 0;
          while i < |agents|
            invariant 0 <= i <= |agents|
            invariant forall k :: 0 <= k < i ==> !PatternMatches(env.matches, agents[k], ua)
            invariant resolve == PathForced(env.matches, pathRegex, request)
          {
            if PatternMatches(env.matches, agents[i], ua) {
              resolve := true;
              break;
            }
            i := i + 1;
          }
        }
      }
      assert resolve == Gate(env.matches, agents, pathRegex, request);
      if !resolve {
        return Pass;
      }
      var uri := env.uriOf(request, secure);
      if uri.None? {
        return Fail(500);
      }
      var key := uri.value;
      var bytes: Option<Bytes> := None;
      if cache != null {
        var got := cache.Get(key);
        if got.Failure? {
          return Fail(500);
        }
        bytes := got.value;
      }
      if bytes.None? {
        var rendered := ExecuteAsBytes(env, app, request, BotOptions);
        if rendered.Failure? {
          return Fail(rendered.error);
        }
        bytes := Some(rendered.value);
        if cache != null {
          var stored := cache.Put(key, rendered.value, now);
          if stored.Failure? {
            return Fail(500);
          }
        }
      }
      r := Respond(WrapIntoResponse(bytes.value));
    }
  }
}
