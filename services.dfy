/**
  The programmatic render service (`nabu.web.renderer.Services.execute`):
  render any URL of an application on demand, with the caller choosing the
  method, the request part, credentials, an injected script and whether
  the ssr bypass and stylesheets are on.  Resolving the application is a
  parameter; the thread-local runtime juggling around the render is not
  part of this model.
*/
module Services {
  import opened Wrappers
  import opened Http
  import opened WebApps
  import Renderer

  /** The `part` argument: absent, a modifiable part, or some other part
      the service cannot add headers to. */
  datatype PartArgument = NoPart | Modifiable(part: Part) | Unmodifiable(part: Part)

  datatype ServiceError =
    | UnknownApplication      // IllegalArgumentException
    | MissingVirtualHost      // the host fallback dereferences the virtual host
    | NotModifiable           // the ClassCastException of the final cast
    | RenderFailed(status: int)

  /** The host: the argument, else the URL's, else the virtual host's
      configured one (which may itself be absent). */
  function ResolveHost(host: Option<string>, url: Uri, app: WebApplication): Result<Option<string>, ServiceError>
  {
    if host.Some? then Success(host)
    else if url.host.Some? then Success(url.host)
    else if app.virtualHost.None? then Failure(MissingVirtualHost)
    else Success(app.virtualHost.value.host)
  }

  function WithHeaders(p: Part, headers: seq<Header>): Part
  {
    match p
    case ContentPart(_, readable) => ContentPart(headers, readable)
    case EmptyPart(_) => EmptyPart(headers)
  }

  /** The part sent: a fresh empty part, or the caller's with a Host added when it has none. */
  function PreparePart(part: PartArgument, host: Option<string>): Result<Part, ServiceError>
  {
    match part
    case NoPart => Success(EmptyPart([Header("Host", ValueOrEmpty(host)), Header("Content-Length", "0")]))
    case Unmodifiable(_) => Failure(NotModifiable)
    case Modifiable(p) =>
      if HasHeader(p.headers, "Host") then Success(p)
      else Success(WithHeaders(p, p.headers + [Header("Host", ValueOrEmpty(host))]))
  }

  function UpperAscii(c: char): char
  {
    if 'a' <= c <= 'z' then (c as int - 32) as char else c
  }

  function UpperCase(s: string): (r: string)
    ensures |r| == |s| && forall i :: 0 <= i < |s| ==> r[i] == UpperAscii(s[i])
  {
    seq(|s|, i requires 0 <= i < |s| => UpperAscii(s[i]))
  }

  /** Upper-casing keeps the length, leaves no ASCII lower-case letter,
      changes nothing but letters (the result equals the input ignoring
      case) and is idempotent. */
  lemma UpperCaseMeaning(s: string)
    ensures |UpperCase(s)| == |s|
    ensures forall i :: 0 <= i < |s| ==> !('a' <= UpperCase(s)[i] <= 'z')
    ensures forall i :: 0 <= i < |s| && !('a' <= s[i] <= 'z') ==> UpperCase(s)[i] == s[i]
    ensures EqualsIgnoreCase(UpperCase(s), s)
    ensures UpperCase(UpperCase(s)) == UpperCase(s)
  {
    var u := UpperCase(s);
    assert forall i :: 0 <= i < |s| ==> LowerAscii(u[i]) == LowerAscii(s[i]);
    assert forall i :: 0 <= i < |s| ==> UpperAscii(u[i]) == u[i];
  }

  function NormalizeMethod(verb: Option<string>): string
  {
    if verb.None? then "GET" else UpperCase(verb.value)
  }

  /** The ssr bypass is on unless it is explicitly disabled. */
  function SsrFlag(disableSsrBypass: Option<bool>): (r: bool)
    ensures r <==> disableSsrBypass != Some(true)
  {
    disableSsrBypass == None || !disableSsrBypass.value
  }

  /** Stylesheets are loaded unless they are explicitly disabled. */
  function CssFlag(disableCss: Option<bool>): (r: bool)
    ensures r <==> disableCss != Some(true)
  {
    if disableCss.Some? && disableCss.value then false else true
  }

  function Options(token: Option<Token>, javascript: Option<string>, disableSsrBypass: Option<bool>, disableCss: Option<bool>)
    : Renderer.RenderOptions
  {
    Renderer.RenderOptions(token, javascript, SsrFlag(disableSsrBypass), CssFlag(disableCss))
  }

  /** The application and the request `execute` renders, or why there is none. */
  function ServiceRequest(resolve: string -> Option<WebApplication>, id: string, verb: Option<string>, url: Uri,
                          part: PartArgument, host: Option<string>)
    : Result<(WebApplication, HttpRequest), ServiceError>
  {
    match resolve(id)
    case None => Failure(UnknownApplication)
    case Some(app) =>
      match ResolveHost(host, url, app)
      case Failure(e) => Failure(e)
      case Success(h) =>
        match PreparePart(part, h)
        case Failure(e) => Failure(e)
        case Success(p) => Success((app, HttpRequest(NormalizeMethod(verb), url.text, Some(p))))
  }

  /** `execute` as a function of its arguments. */
  function ExecuteSpec(env: Renderer.Env, resolve: string -> Option<WebApplication>, id: string, verb: Option<string>, url: Uri,
                       part: PartArgument, token: Option<Token>, javascript: Option<string>,
                       disableSsrBypass: Option<bool>, disableCss: Option<bool>, host: Option<string>)
    : Result<HttpResponse, ServiceError>
  {
    match ServiceRequest(resolve, id, verb, url, part, host)
    case Failure(e) => Failure(e)
    case Success((app, request)) =>
      match Renderer.Execute(env, app, request, Options(token, javascript, disableSsrBypass, disableCss))
      case Failure(status) => Failure(RenderFailed(status))
      case Success(response) => Success(response)
  }

  /** The defaulting steps of `execute` up to the request it renders. */
  method BuildRequest(resolve: string -> Option<WebApplication>, id: string, verb: Option<string>, url: Uri,
                      part: PartArgument, host: Option<string>)
    returns (r: Result<(WebApplication, HttpRequest), ServiceError>)
    ensures r == ServiceRequest(resolve, id, verb, url, part, host)
  {
    var application := resolve(id);
    if application.None? {
      return Failure(UnknownApplication);
    }
    var app := application.value;
    var h := host;
    if h.None? {
      h := url.host;
    }
    if h.None? {
      if app.virtualHost.None? {
        return Failure(MissingVirtualHost);
      }
      h := app.virtualHost.value.host;
    }
    assert ResolveHost(host, url, app) == Success(h);
    var p: Part;
    if part.NoPart? {
      p := EmptyPart([Header("Host", ValueOrEmpty(h)), Header("Content-Length", "0")]);
    } else if part.Modifiable? {
      p := part.part;
      if GetHeader(p.headers, "Host").None? {
        p := WithHeaders(p, p.headers + [Header("Host", ValueOrEmpty(h))]);
      }
    } else {
      return Failure(NotModifiable);
    }
    r := Success((app, HttpRequest(if verb.None? then "GET" else UpperCase(verb.value), url.text, Some(p))));
  }

  method Execute(env: Renderer.Env, resolve: string -> Option<WebApplication>, id: string, verb: Option<string>, url: Uri,
                 part: PartArgument, token: Option<Token>, javascript: Option<string>,
                 disableSsrBypass: Option<bool>, disableCss: Option<bool>, host: Option<string>)
    returns (r: Result<HttpResponse, ServiceError>)
    ensures r == ExecuteSpec(env, resolve, id, verb, url, part, token, javascript, disableSsrBypass, disableCss, host)
  {
    var built := BuildRequest(resolve, id, verb, url, part, host);
    if built.Failure? {
      return Failure(built.error);
    }
    var (app, request) := built.value;
    var rendered := Renderer.Execute(env, app, request, Options(token, javascript, disableSsrBypass, disableCss));
    if rendered.Failure? {
      return Failure(RenderFailed(rendered.error));
    }
    r := Success(rendered.value);
  }

  // -------------------------------------------------------------- lemmas

  /** An unknown application is refused before anything else is looked at. */
  lemma UnknownApplicationFirst(env: Renderer.Env, resolve: string -> Option<WebApplication>, id: string, verb: Option<string>, url: Uri,
                                part: PartArgument, token: Option<Token>, javascript: Option<string>,
                                disableSsrBypass: Option<bool>, disableCss: Option<bool>, host: Option<string>)
    requires resolve(id).None?
    ensures ExecuteSpec(env, resolve, id, verb, url, part, token, javascript, disableSsrBypass, disableCss, host) == Failure(UnknownApplication)
  {
  }

  /** The argument wins over the URL, which wins over the virtual host. */
  lemma HostPrecedence(host: Option<string>, url: Uri, app: WebApplication)
    ensures host.Some? ==> ResolveHost(host, url, app) == Success(host)
    ensures host.None? && url.host.Some? ==> ResolveHost(host, url, app) == Success(url.host)
    ensures host.None? && url.host.None? ==>
      (ResolveHost(host, url, app).Success? <==> app.virtualHost.Some?)
      && (app.virtualHost.Some? ==> ResolveHost(host, url, app) == Success(app.virtualHost.value.host))
  {
  }

  /** The prepared part always has a Host.  A caller's part keeps its Host
      when it has one, and otherwise gains exactly one Host after its own
      headers; without a part it holds exactly Host and a zero length. */
  lemma PreparedPartHost(part: PartArgument, host: Option<string>)
    requires PreparePart(part, host).Success?
    ensures var p := PreparePart(part, host).value;
      && HasHeader(p.headers, "Host")
      && (part.NoPart? ==> p.EmptyPart? && p.headers == [Header("Host", ValueOrEmpty(host)), Header("Content-Length", "0")])
      && (part.Modifiable? && HasHeader(part.part.headers, "Host") ==> p == part.part)
      && (part.Modifiable? && !HasHeader(part.part.headers, "Host") ==>
            p.headers == part.part.headers + [Header("Host", ValueOrEmpty(host))]
            && GetHeader(p.headers, "Host") == Some(Header("Host", ValueOrEmpty(host)))
            && p.EmptyPart? == part.part.EmptyPart?
            && (p.ContentPart? ==> p.readable == part.part.readable))
  {
    var p := PreparePart(part, host).value;
    if part.NoPart? {
      assert Named(p.headers[0], "Host");
    } else if !HasHeader(part.part.headers, "Host") {
      GetHeaderAppendFirst(part.part.headers, Header("Host", ValueOrEmpty(host)));
    }
  }

  /** The rendered request is the URL with the normalised method and a part that names a host. */
  lemma ServiceRequestShape(resolve: string -> Option<WebApplication>, id: string, verb: Option<string>, url: Uri,
                            part: PartArgument, host: Option<string>)
    requires ServiceRequest(resolve, id, verb, url, part, host).Success?
    ensures var (app, request) := ServiceRequest(resolve, id, verb, url, part, host).value;
      && resolve(id) == Some(app)
      && request.verb == NormalizeMethod(verb) && request.target == url.text
      && request.content.Some? && HasHeader(request.content.value.headers, "Host")
  {
    var app := resolve(id).value;
    PreparedPartHost(part, ResolveHost(host, url, app).value);
  }

  /** Only the caller's modifiable parts or none at all are accepted. */
  lemma PreparePartFailsIff(part: PartArgument, host: Option<string>)
    ensures PreparePart(part, host).Failure? <==> part.Unmodifiable?
  {
  }

  /** The method is GET by default and otherwise upper-cased, so normalising twice changes nothing. */
  lemma {:induction false} NormalizeMethodUpper(verb: Option<string>)
    ensures var m := NormalizeMethod(verb); forall i :: 0 <= i < |m| ==> !('a' <= m[i] <= 'z')
    ensures NormalizeMethod(Some(NormalizeMethod(verb))) == NormalizeMethod(verb)
  {
    var m := NormalizeMethod(verb);
    if verb.None? {
      assert forall i :: 0 <= i < |m| ==> m[i] in "GET";
    }
    assert forall i :: 0 <= i < |m| ==> UpperAscii(m[i]) == m[i];
    assert UpperCase(m) == m;
  }
}
