/**
  The render bridge (`WebConnectionImpl.java`): the network connection the
  headless browser uses.  Every request the browser makes is turned into a
  request on the application's own dispatcher, marked so the renderer will
  not render it again, and answered from there; only what the application
  does not serve at all goes out over a real HTTP client.  One connection
  object lives for one render and injects the configured script into the
  first JavaScript response it passes on, and into no other.

  The dispatcher, its response post-processing, the HTTP client, the
  exception formatter, `MimeUtils.getContentType`, UTF-8 encoding and the
  names of the request-type and authentication headers are parameters
  (`Collaborators`).
*/
module Bridge {
  import opened Wrappers
  import opened Http
  import opened RenderCache
  import opened Agents
  import opened WebApps
  import Renderer

  /** What the browser asks for.  `host` is `getUrl().getHost()`; the extra
      request headers come in the order the browser's map yields them. */
  datatype WebRequest = WebRequest(
    verb: string,
    url: string,
    host: string,
    body: Option<string>,
    parameters: seq<(string, string)>,
    additionalHeaders: seq<(string, string)>)

  /** What the browser gets back. */
  datatype WebResponseData = WebResponseData(content: Option<Bytes>, code: int, message: string, headers: seq<(string, string)>)

  /** The answer of `dispatcher.fire` as the bridge's two handlers see it. */
  datatype DispatchResult =
    | NoResponse                     // nobody answered, not even with an error
    | Responded(response: HttpResponse)
    | HandlerException(error: string)     // formatted into a response
    | PreprocessException(error: string)  // raised as an HTTPException(500)

  /** The answer of the response post-processing pass. */
  datatype PostResult = Unaltered | Altered(response: HttpResponse) | PostException(error: string)

  datatype BridgeError =
    | UnexpectedParameters     // IOException
    | PreprocessFailed         // HTTPException(500) from the request rewriting hook
    | ClientFailed             // RuntimeException around the HTTP client's exception
    | NoResponseFound          // RuntimeException("No response found")
    | NullContent              // the response has no content part to read headers from
    | NullContentType          // a body but no content type while injection is pending

  datatype Collaborators = Collaborators(
    dispatch: HttpRequest -> DispatchResult,
    postProcess: HttpResponse -> PostResult,
    client: (HttpRequest, bool) -> Result<Option<HttpResponse>, string>,  // (request, secure)
    format: (HttpRequest, string) -> HttpResponse,
    contentType: seq<Header> -> Option<string>,
    utf8: string -> Bytes,
    requestTypeHeader: string,
    authHeader: Token -> Header)

  const DefaultUserAgent := "Nabu-Renderer/1.0"

  // ------------------------------------------------------- request shape

  /** The browser's extra headers, copied one by one onto the internal request. */
  function CopyHeaders(pairs: seq<(string, string)>): (r: seq<Header>)
    ensures |r| == |pairs|
    ensures forall k :: 0 <= k < |pairs| ==> r[k] == Header(pairs[k].0, pairs[k].1)
  {
    seq(|pairs|, k requires 0 <= k < |pairs| => Header(pairs[k].0, pairs[k].1))
  }

  /** Looking a name up among the copied headers finds the browser's first
      header of that name, ignoring ASCII case, and nothing when it sent none. */
  lemma CopyHeadersLookup(pairs: seq<(string, string)>, name: string)
    ensures var r := GetHeader(CopyHeaders(pairs), name);
      && (r.None? <==> forall k :: 0 <= k < |pairs| ==> !EqualsIgnoreCase(pairs[k].0, name))
      && (r.Some? ==> exists k :: 0 <= k < |pairs| && r.value == Header(pairs[k].0, pairs[k].1)
                          && forall j :: 0 <= j < k ==> !EqualsIgnoreCase(pairs[j].0, name))
  {
    var hs := CopyHeaders(pairs);
    assert forall k :: 0 <= k < |pairs| ==> (Named(hs[k], name) <==> EqualsIgnoreCase(pairs[k].0, name));
  }

  /** The Host header is set from the URL when absent, replaced when it
      names another host, and otherwise left alone. */
  function FixHost(headers: seq<Header>, host: string): seq<Header>
  {
    var current := GetHeader(headers, "Host");
    if current.None? then headers + [Header("Host", host)]
    else if current.value.value != host then RemoveHeader(headers, "Host") + [Header("Host", host)]
    else headers
  }

  function FixUserAgent(headers: seq<Header>): seq<Header>
  {
    if GetHeader(headers, "User-Agent").None? then headers + [Header("User-Agent", DefaultUserAgent)] else headers
  }

  /** The headers every internal request gets after the browser's own. */
  function Stamp(headers: seq<Header>, c: Collaborators, ssr: bool, token: Option<Token>): seq<Header>
  {
    headers + [Header(Renderer.MarkerHeader, "false")]
      + (if ssr then [Header(c.requestTypeHeader, "ssr")] else [])
      + (if token.Some? then [c.authHeader(token.value)] else [])
  }

  function OutboundHeaders(c: Collaborators, ssr: bool, token: Option<Token>, req: WebRequest): seq<Header>
  {
    Stamp(FixUserAgent(FixHost(CopyHeaders(req.additionalHeaders), req.host)), c, ssr, token)
  }

  function MakePart(c: Collaborators, body: Option<string>, headers: seq<Header>): Part
  {
    if body.None? || body.value == "" then EmptyPart(headers) else ContentPart(headers, Some(c.utf8(body.value)))
  }

  /** The internal request the bridge dispatches for a browser request. */
  function Outbound(c: Collaborators, ssr: bool, token: Option<Token>, req: WebRequest): HttpRequest
  {
    HttpRequest(req.verb, req.url, Some(MakePart(c, req.body, OutboundHeaders(c, ssr, token, req))))
  }

  // ------------------------------------------------------------ dispatch

  predicate StartsWith(s: string, prefix: string)
  {
    |prefix| <= |s| && s[..|prefix|] == prefix
  }

  function PostProcess(c: Collaborators, request: HttpRequest, response: HttpResponse): HttpResponse
  {
    match c.postProcess(response)
    case Unaltered => response
    case Altered(a) => a
    case PostException(e) => c.format(request, e)
  }

  /** The response for an internal request: the application's own (after
      post-processing), or the real client's when the application has none. */
  function Obtain(c: Collaborators, request: HttpRequest): Result<HttpResponse, BridgeError>
  {
    match c.dispatch(request)
    case PreprocessException(_) => Failure(PreprocessFailed)
    case Responded(response) => Success(PostProcess(c, request, response))
    case HandlerException(e) => Success(PostProcess(c, request, c.format(request, e)))
    case NoResponse =>
      match c.client(request, StartsWith(request.target, "https://"))
      case Failure(_) => Failure(ClientFailed)
      case Success(None) => Failure(NoResponseFound)
      case Success(Some(response)) => Success(response)
  }

  // ----------------------------------------------------------- injection

  /** One injection decision: the body passed on and the new one-shot flag. */
  function Inject(utf8: string -> Bytes, javascript: Option<string>, injected: bool,
                  body: Option<Bytes>, contentType: Option<string>): Result<(Option<Bytes>, bool), BridgeError>
  {
    if injected || body.None? then Success((body, injected))
    else if contentType.None? then Failure(NullContentType)
    else if contentType.value == JavascriptType && javascript.Some? then
      Success((Some(utf8(javascript.value + "\n\n") + body.value), true))
    else Success((body, injected))
  }

  predicate IsHopHeader(h: Header)
  {
    EqualsIgnoreCase(h.name, "Content-Encoding") || EqualsIgnoreCase(h.name, "Transfer-Encoding")
  }

  /** The headers handed back to the browser, in order, without the encoding ones. */
  function FilterHeaders(headers: seq<Header>): seq<(string, string)>
  {
    if |headers| == 0 then []
    else
      var last := headers[|headers| - 1];
      FilterHeaders(headers[..|headers| - 1]) + (if IsHopHeader(last) then [] else [(last.name, last.value)])
  }

  function Deliver(c: Collaborators, javascript: Option<string>, injected: bool, response: HttpResponse)
    : Result<(WebResponseData, bool), BridgeError>
  {
    if response.content.None? then Failure(NullContent)
    else
      var part := response.content.value;
      var body := if part.ContentPart? then part.readable else None;
      match Inject(c.utf8, javascript, injected, body, c.contentType(part.headers))
      case Failure(e) => Failure(e)
      case Success((content, now)) =>
        Success((WebResponseData(content, response.code, response.message, FilterHeaders(part.headers)), now))
  }

  /** `getResponse` as a function of the connection's settings and flag. */
  function Serve(c: Collaborators, token: Option<Token>, ssr: bool, javascript: Option<string>, injected: bool, req: WebRequest)
    : Result<(WebResponseData, bool), BridgeError>
  {
    if |req.parameters| > 0 then Failure(UnexpectedParameters)
    else
      match Obtain(c, Outbound(c, ssr, token, req))
      case Failure(e) => Failure(e)
      case Success(response) => Deliver(c, javascript, injected, response)
  }

  /** The header steps of `getResponse` up to building the internal request. */
  method BuildOutbound(c: Collaborators, ssr: bool, token: Option<Token>, req: WebRequest) returns (request: HttpRequest)
    ensures request == Outbound(c, ssr, token, req)
  {
    var headers: seq<Header> := [];
    var i := 0;
    while i < |req.additionalHeaders|
      invariant 0 <= i <= |req.additionalHeaders|
      invariant headers == CopyHeaders(req.additionalHeaders[..i])
    {
      headers := headers + [Header(req.additionalHeaders[i].0, req.additionalHeaders[i].1)];
      i := i + 1;
    }
    assert req.additionalHeaders[..i] == req.additionalHeaders;
    ghost var copied := headers;

    var hostHeader := GetHeader(headers, "Host");
    if hostHeader.None? {
      headers := headers + [Header("Host", req.host)];
    } else if hostHeader.value.value != req.host {
      headers := RemoveHeader(headers, "Host");
      headers := headers + [Header("Host", req.host)];
    }
    assert headers == FixHost(copied, req.host);
    ghost var hosted := headers;
    if GetHeader(headers, "User-Agent").None? {
      headers := headers + [Header("User-Agent", DefaultUserAgent)];
    }
    assert headers == FixUserAgent(hosted);
    ghost var fixed := headers;
    headers := headers + [Header(Renderer.MarkerHeader, "false")];
    ghost var marked := headers;
    if ssr {
      headers := headers + [Header(c.requestTypeHeader, "ssr")];
    }
    assert headers == marked + (if ssr then [Header(c.requestTypeHeader, "ssr")] else []);
    ghost var typed := headers;
    if token.Some? {
      headers := headers + [c.authHeader(token.value)];
    }
    assert headers == typed + (if token.Some? then [c.authHeader(token.value)] else []);
    assert headers == Stamp(fixed, c, ssr, token);
    request := HttpRequest(req.verb, req.url, Some(MakePart(c, req.body, headers)));
  }

  /** The loop copying the response headers, minus the encoding ones. */
  method CopyResponseHeaders(headers: seq<Header>) returns (r: seq<(string, string)>)
    ensures r == FilterHeaders(headers)
  {
    r := [];
    var j := 0;
    while j < |headers|
      invariant 0 <= j <= |headers|
      invariant r == FilterHeaders(headers[..j])
    {
      var header := headers[j];
      assert headers[..j + 1][..j] == headers[..j];
      if !IsHopHeader(header) {
        r := r + [(header.name, header.value)];
      }
      j := j + 1;
    }
    assert headers[..j] == headers;
  }


  // ------------------------------------------------------------- lemmas

  lemma {:induction false} GetHeaderRemoveOther(headers: seq<Header>, removed: string, name: string)
    requires forall h: Header :: Named(h, name) ==> !Named(h, removed)
    ensures GetHeader(RemoveHeader(headers, removed), name) == GetHeader(headers, name)
  {
    if |headers| == 0 {
    } else if Named(headers[0], removed) {
      GetHeaderRemoveOther(headers[1..], removed, name);
    } else {
      GetHeaderRemoveOther(headers[1..], removed, name);
      var rest := RemoveHeader(headers[1..], removed);
      assert ([headers[0]] + rest)[1..] == rest;
    }
  }

  /** After the Host step the first Host header names the URL's host, every
      other header is kept, and an agreeing Host header is left untouched. */
  lemma FixHostSetsHost(headers: seq<Header>, host: string)
    ensures GetHeader(FixHost(headers, host), "Host").Some?
    ensures GetHeader(FixHost(headers, host), "Host").value.value == host
    ensures forall h :: !Named(h, "Host") ==> (h in FixHost(headers, host) <==> h in headers)
    ensures HasHeader(headers, "Host") && GetHeader(headers, "Host").value.value == host ==> FixHost(headers, host) == headers
  {
    var current := GetHeader(headers, "Host");
    if current.None? {
      GetHeaderAppendFirst(headers, Header("Host", host));
    } else if current.value.value != host {
      GetHeaderAppendFirst(RemoveHeader(headers, "Host"), Header("Host", host));
    }
  }

  lemma FixedKeepsOthers(copied: seq<Header>, host: string, h: Header)
    requires !Named(h, "Host") && !Named(h, "User-Agent")
    ensures h in FixUserAgent(FixHost(copied, host)) <==> h in copied
  {
    FixHostSetsHost(copied, host);
  }

  /** Every internal request carries the renderer's marker, so the renderer
      lets it through to the application instead of rendering it again. */
  lemma BridgeRequestsAreNotRendered(c: Collaborators, ssr: bool, token: Option<Token>, req: WebRequest,
                                     env: Renderer.Env, app: WebApplication, agents: seq<AgentPattern>,
                                     pathRegex: Option<string>, cache: Option<CacheState>, now: int)
    ensures Renderer.IsBridgeRequest(Outbound(c, ssr, token, req))
    ensures Renderer.HandleSpec(env, app, agents, pathRegex, cache, Outbound(c, ssr, token, req), now) == (Renderer.Pass, cache)
  {
    var fixed := FixUserAgent(FixHost(CopyHeaders(req.additionalHeaders), req.host));
    var marked := fixed + [Header(Renderer.MarkerHeader, "false")];
    AppendedHeaderIsPresent(fixed, Header(Renderer.MarkerHeader, "false"));
    var rest := (if ssr then [Header(c.requestTypeHeader, "ssr")] else []) + (if token.Some? then [c.authHeader(token.value)] else []);
    GetHeaderAppend(marked, rest, Renderer.MarkerHeader);
    assert OutboundHeaders(c, ssr, token, req) == marked + rest;
  }

  /** The internal request's first Host header is the URL's host, and its
      first User-Agent header is the browser's own or the bridge's default. */
  lemma OutboundHostAndAgent(c: Collaborators, ssr: bool, token: Option<Token>, req: WebRequest)
    ensures GetHeader(OutboundHeaders(c, ssr, token, req), "Host").Some?
    ensures GetHeader(OutboundHeaders(c, ssr, token, req), "Host").value.value == req.host
    ensures var own := GetHeader(CopyHeaders(req.additionalHeaders), "User-Agent");
      GetHeader(OutboundHeaders(c, ssr, token, req), "User-Agent")
      == (if own.Some? then own else Some(Header("User-Agent", DefaultUserAgent)))
  {
    var copied := CopyHeaders(req.additionalHeaders);
    var hosted := FixHost(copied, req.host);
    var fixed := FixUserAgent(hosted);
    var rest := [Header(Renderer.MarkerHeader, "false")]
      + (if ssr then [Header(c.requestTypeHeader, "ssr")] else []) + (if token.Some? then [c.authHeader(token.value)] else []);
    assert OutboundHeaders(c, ssr, token, req) == fixed + rest;
    FixHostSetsHost(copied, req.host);
    if GetHeader(hosted, "User-Agent").None? {
      GetHeaderAppendOther(hosted, Header("User-Agent", DefaultUserAgent), "Host");
      GetHeaderAppendFirst(hosted, Header("User-Agent", DefaultUserAgent));
    }
    GetHeaderAppend(fixed, rest, "Host");
    GetHeaderAppend(fixed, rest, "User-Agent");
    var current := GetHeader(copied, "Host");
    if current.None? {
      GetHeaderAppendOther(copied, Header("Host", req.host), "User-Agent");
    } else if current.value.value != req.host {
      GetHeaderRemoveOther(copied, "Host", "User-Agent");
      GetHeaderAppendOther(RemoveHeader(copied, "Host"), Header("Host", req.host), "User-Agent");
    }
  }

  /** The request-type header asks for server-side rendering exactly when the
      connection is in ssr mode (barring a browser header that already says so). */
  lemma SsrHeaderIff(c: Collaborators, ssr: bool, token: Option<Token>, req: WebRequest)
    requires Header(c.requestTypeHeader, "ssr") !in CopyHeaders(req.additionalHeaders)
    requires !Named(Header(c.requestTypeHeader, "ssr"), "Host") && !Named(Header(c.requestTypeHeader, "ssr"), "User-Agent")
    requires c.requestTypeHeader != Renderer.MarkerHeader
    requires token.None? || c.authHeader(token.value) != Header(c.requestTypeHeader, "ssr")
    ensures Header(c.requestTypeHeader, "ssr") in OutboundHeaders(c, ssr, token, req) <==> ssr
  {
    var copied := CopyHeaders(req.additionalHeaders);
    FixedKeepsOthers(copied, req.host, Header(c.requestTypeHeader, "ssr"));
  }

  /** The authentication header is sent exactly when the connection has a token. */
  lemma AuthHeaderIff(c: Collaborators, ssr: bool, token: Option<Token>, req: WebRequest, t: Token)
    requires c.authHeader(t) !in CopyHeaders(req.additionalHeaders)
    requires !Named(c.authHeader(t), "Host") && !Named(c.authHeader(t), "User-Agent")
    requires c.authHeader(t) != Header(Renderer.MarkerHeader, "false") && c.authHeader(t) != Header(c.requestTypeHeader, "ssr")
    ensures c.authHeader(t) in OutboundHeaders(c, ssr, token, req) <==> token.Some? && c.authHeader(token.value) == c.authHeader(t)
  {
    var copied := CopyHeaders(req.additionalHeaders);
    FixedKeepsOthers(copied, req.host, c.authHeader(t));
  }

  /** The real HTTP client is consulted only for requests the application
      does not answer, and then only with `secure` = "the target is https". */
  lemma ClientOnlyWhenUnserved(c: Collaborators, other: (HttpRequest, bool) -> Result<Option<HttpResponse>, string>, request: HttpRequest)
    requires !c.dispatch(request).NoResponse?
          || other(request, StartsWith(request.target, "https://")) == c.client(request, StartsWith(request.target, "https://"))
    ensures Obtain(c.(client := other), request) == Obtain(c, request)
  {
  }

  /** A handler's exception is answered with a formatted response; the
      exchange fails only when the rewriting hook fails or nobody answers. */
  lemma ObtainFailsOnlyWhen(c: Collaborators, request: HttpRequest)
    ensures Obtain(c, request).Failure? <==>
      || c.dispatch(request).PreprocessException?
      || (c.dispatch(request).NoResponse? &&
          var external := c.client(request, StartsWith(request.target, "https://"));
          external.Failure? || external.value.None?)
  {
  }

  // -------------------------------------------------- response headers

  lemma {:induction false} FilterHeadersAppend(a: seq<Header>, b: seq<Header>)
    ensures FilterHeaders(a + b) == FilterHeaders(a) + FilterHeaders(b)
  {
    if |b| == 0 {
      assert a + b == a;
    } else {
      var last := b[|b| - 1];
      assert (a + b)[..|a + b| - 1] == a + b[..|b| - 1];
      FilterHeadersAppend(a, b[..|b| - 1]);
    }
  }

  /** Exactly the headers other than Content-Encoding and Transfer-Encoding
      reach the browser. */
  lemma {:induction false} FilterHeadersMembers(headers: seq<Header>)
    ensures forall p :: p in FilterHeaders(headers) ==> Header(p.0, p.1) in headers && !IsHopHeader(Header(p.0, p.1))
    ensures forall h :: h in headers && !IsHopHeader(h) ==> (h.name, h.value) in FilterHeaders(headers)
  {
    if |headers| > 0 {
      var init := headers[..|headers| - 1];
      FilterHeadersMembers(init);
      assert headers == init + [headers[|headers| - 1]];
    }
  }

  // ------------------------------------------------------------ injection

  /** What the browser fetches over one connection: each body with its type. */
  datatype Fetched = Fetched(body: Option<Bytes>, contentType: Option<string>)

  /** The bodies the browser sees over a session of fetches, or the error
      that ends the render. */
  function Session(utf8: string -> Bytes, javascript: Option<string>, injected: bool, items: seq<Fetched>)
    : Result<seq<Option<Bytes>>, BridgeError>
    decreases |items|
  {
    if |items| == 0 then Success([])
    else match Inject(utf8, javascript, injected, items[0].body, items[0].contentType)
      case Failure(e) => Failure(e)
      case Success((b, now)) =>
        match Session(utf8, javascript, now, items[1..])
        case Failure(e) => Failure(e)
        case Success(rest) => Success([b] + rest)
  }

  predicate Qualifies(javascript: Option<string>, item: Fetched)
  {
    item.body.Some? && item.contentType == Some(JavascriptType) && javascript.Some?
  }

  /** Once the script is in, every later body passes unchanged. */
  lemma {:induction false} SessionAfterInjection(utf8: string -> Bytes, javascript: Option<string>, items: seq<Fetched>)
    ensures Session(utf8, javascript, true, items).Success?
    ensures |Session(utf8, javascript, true, items).value| == |items|
    ensures forall k :: 0 <= k < |items| ==> Session(utf8, javascript, true, items).value[k] == items[k].body
  {
    if |items| > 0 {
      SessionAfterInjection(utf8, javascript, items[1..]);
    }
  }

  /** Over one connection the script goes into the first JavaScript response
      and no other: every body before it and every body after it is passed on
      as fetched. */
  lemma {:induction false} InjectedIntoFirstOnly(utf8: string -> Bytes, javascript: Option<string>, items: seq<Fetched>, i: nat)
    requires Session(utf8, javascript, false, items).Success?
    requires i < |items| && Qualifies(javascript, items[i])
    requires forall k :: 0 <= k < i ==> !Qualifies(javascript, items[k])
    ensures var out := Session(utf8, javascript, false, items).value;
      && |out| == |items|
      && out[i] == Some(utf8(javascript.value + "\n\n") + items[i].body.value)
      && (forall k :: 0 <= k < |items| && k != i ==> out[k] == items[k].body)
  {
    var first := Inject(utf8, javascript, false, items[0].body, items[0].contentType);
    if i == 0 {
      SessionAfterInjection(utf8, javascript, items[1..]);
    } else {
      assert !Qualifies(javascript, items[0]);
      assert first.value.1 == false;
      InjectedIntoFirstOnly(utf8, javascript, items[1..], i - 1);
    }
  }

  /** Without a JavaScript response nothing is injected. */
  lemma {:induction false} NoScriptNoInjection(utf8: string -> Bytes, javascript: Option<string>, items: seq<Fetched>)
    requires Session(utf8, javascript, false, items).Success?
    requires forall k :: 0 <= k < |items| ==> !Qualifies(javascript, items[k])
    ensures |Session(utf8, javascript, false, items).value| == |items|
    ensures forall k :: 0 <= k < |items| ==> Session(utf8, javascript, false, items).value[k] == items[k].body
  {
    if |items| > 0 {
      assert !Qualifies(javascript, items[0]);
      NoScriptNoInjection(utf8, javascript, items[1..]);
    }
  }

  /** A body without a content type ends the render while injection is still
      pending, even on a connection that has no script to inject. */
  lemma UntypedBodyFailsBeforeInjection(utf8: string -> Bytes, javascript: Option<string>, items: seq<Fetched>)
    requires |items| > 0 && items[0].body.Some? && items[0].contentType.None?
    ensures Session(utf8, javascript, false, items) == Failure(NullContentType)
  {
  }

  /** `getResponse`'s flag moves only from false to true, and a connection
      that has injected passes every body on unchanged. */
  lemma ServeAfterInjection(c: Collaborators, token: Option<Token>, ssr: bool, javascript: Option<string>, req: WebRequest)
    requires Serve(c, token, ssr, javascript, true, req).Success?
    ensures Serve(c, token, ssr, javascript, true, req).value.1
    ensures var response := Obtain(c, Outbound(c, ssr, token, req)).value;
      Serve(c, token, ssr, javascript, true, req).value.0.content
      == (if response.content.value.ContentPart? then response.content.value.readable else None)
  {
  }

  // ------------------------------------------------------ the connection

  class WebConnection {
    const token: Option<Token>
    var javascriptToInject: Option<string>
    var ssr: bool
    var injected: bool

    constructor (token: Option<Token>)
      ensures this.token == token
      ensures javascriptToInject == None && !ssr && !injected
    {
      this.token := token;
      javascriptToInject := None;
      ssr := false;
      injected := false;
    }

    method SetJavascriptToInject(javascript: Option<string>)
      modifies this`javascriptToInject
      ensures javascriptToInject == javascript
    {
      javascriptToInject := javascript;
    }

    method SetSsr(ssr: bool)
      modifies this`ssr
      ensures this.ssr == ssr
    {
      this.ssr := ssr;
    }

    method GetResponse(c: Collaborators, req: WebRequest) returns (r: Result<WebResponseData, BridgeError>)
      modifies this`injected
      ensures var s := Serve(c, token, ssr, javascriptToInject, old(injected), req);
        && (s.Success? ==> r == Success(s.value.0) && injected == s.value.1)
        && (s.Failure? ==> r == Failure(s.error) && injected == old(injected))
    {
      if |req.parameters| > 0 {
        return Failure(UnexpectedParameters);
      }
      var request := BuildOutbound(c, ssr, token, req);

      var response: HttpResponse;
      match c.dispatch(request) {
        case PreprocessException(_) =>
          return Failure(PreprocessFailed);
        case NoResponse =>
          var external := c.client(request, StartsWith(request.target, "https://"));
          if external.Failure? {
            return Failure(ClientFailed);
          }
          if external.value.None? {
            return Failure(NoResponseFound);
          }
          response := external.value.value;
        case Responded(internal) =>
          response := internal;
          var altered := PostProcess(c, request, response);
          response := altered;
        case HandlerException(e) =>
          response := c.format(request, e);
          var altered := PostProcess(c, request, response);
          response := altered;
      }

      if response.content.None? {
        return Failure(NullContent);
      }
      var part := response.content.value;
      var content := if part.ContentPart? then part.readable else None;
      var contentType := c.contentType(part.headers);
      if !injected && content.Some? && contentType.None? {
        return Failure(NullContentType);
      }
      if !injected && content.Some? && contentType.value == JavascriptType && javascriptToInject.Some? {
        content := Some(c.utf8(javascriptToInject.value + "\n\n") + content.value);
        injected := true;
      }

      var responseHeaders := CopyResponseHeaders(part.headers);
      r := Success(WebResponseData(content, response.code, response.message, responseHeaders));
    }
  }
}
