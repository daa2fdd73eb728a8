# Nabu web renderer: a verified model

The nabu web renderer serves pre-rendered HTML to crawlers. A request handler
on a web application's dispatcher (`Renderer`) decides from the path and the
User-Agent whether a request comes from a bot. If it does, the handler answers
from a render cache, or renders the page in a headless browser and caches the
bytes. The browser's network layer (`WebConnectionImpl`), also called the
bridge, routes every sub-request the browser makes back into the application's
own dispatcher. It marks each of those requests so the renderer does not render
them again. A web fragment (`RendererArtifact`) does the following:

- it wires renderers into applications;
- it keeps one cache per application and one subscription per `id:path`;
- it pre-fills and refreshes cache entries;
- it warms an application up on start.

`EventResource` reads resources through the dispatcher. The `execute`
service renders any URL on demand.

The model has one module per concern:

| module (file) | what it holds |
|---|---|
| `Http` (http.dfy) | Header, part, request and response values, plus the case-insensitive header lookup. |
| `Decimal` (decimal.dfy) | The decimal form of `Content-Length`. |
| `Agents` (agents.dfy) | The built-in crawler patterns, read exactly as the regular expression `(?i).*(a\|b).*`. |
| `Cdata` (cdata.dfy) | The two `replaceAll` passes that remove `//<![CDATA[` and `//]]>`. |
| `RenderCache` (cache.dfy) | The render cache as a class over a map. |
| `WebApps` (application.dfy) | The parts of an application's configuration that are read. |
| `Renderer` (renderer.dfy) | The gate, the coordinator class and the response wrapper. |
| `Bridge` (bridge.dfy) | The connection class with its one-shot injection flag. |
| `Artifact` (artifact.dfy) | The registry class. |
| `Resources` (event_resource.dfy) | The resource class. |
| `Services` (services.dfy) | The service. |

Several collaborators are parameters of the model. Each is a total, deterministic
function, and the properties hold for every answer of that shape. What lies outside
that shape (exceptions, side effects, answers that change between calls) is listed
under "## Left out". The parameters are:

- the browser (`Renderer.Env.engine`);
- `HTTPUtils.getURI`;
- `String.matches` for configured patterns;
- UTF-8 encoding;
- the dispatcher, the response post-processing pass, the HTTP client and the exception formatter (`Bridge.Collaborators`);
- `MimeUtils.getContentType`;
- the application resolver.

Each stateful operation is a method proved against a function of the old state.
The properties are lemmas about those functions.

Three behaviours of the code are worth noting:

- **Injection on an empty body.** The bridge injects into any JavaScript
  response with a non-null body, including an empty one.
- **Missing content type.** The bridge calls `contentType.equals` before it
  tests the script for null. While injection is pending, a body without a
  content type ends the render with an exception. This also happens on
  connections that have no script to inject.
  `Bridge.UntypedBodyFailsBeforeInjection` states it.
- **Warm-up output.** Warm-up renders discard their output. They do not fill the cache.

## Model

| member | source | states |
|---|---|---|
| Http.FirstNamed | src/main/java/be/nabu/eai/module/http/server/renderer/Renderer.java:113 | The index is the first header whose name matches ignoring ASCII case. None means that no header matches. |
| Http.GetHeader | src/main/java/be/nabu/eai/module/http/server/renderer/WebConnectionImpl.java:82 | None iff no header has that name. Otherwise the result is the first header of that name in the list. |
| Http.RemoveHeader | src/main/java/be/nabu/eai/module/http/server/renderer/WebConnectionImpl.java:91-92 | No header of that name remains. Every other header is kept. Nothing is added. |
| Http.GetHeaderAppend | src/main/java/be/nabu/eai/module/http/server/renderer/WebConnectionImpl.java:96-109 | Headers set later never change which header of a name is found first. |
| Http.GetHeaderAppendOther | src/main/java/be/nabu/eai/module/http/server/renderer/WebConnectionImpl.java:96-100 | Setting a header of another name does not change a lookup. |
| Http.GetHeaderAppendFirst | src/main/java/be/nabu/eai/module/http/server/renderer/WebConnectionImpl.java:83-84 | A header set when none of its name exists is the one found. |
| Decimal.NatToString | src/main/java/be/nabu/eai/module/http/server/renderer/Renderer.java:198 | `Integer.toString` of a length gives decimal digits without a leading zero. |
| Decimal.StringToNatOfNatToString | src/main/java/be/nabu/eai/module/http/server/renderer/Renderer.java:198 | The Content-Length text reads back as the number it was made from. |
| Decimal.NatToStringInjective | src/main/java/be/nabu/eai/module/http/server/renderer/Renderer.java:198 | Different lengths give different Content-Length texts. |
| Agents.ContainsIff | src/main/java/be/nabu/eai/module/http/server/renderer/Renderer.java:53-85 | A pattern alternative is contained in the value iff it occurs at some position. At such a position '.' matches any character and letters match ignoring ASCII case. |
| Agents.FirstMatch | src/main/java/be/nabu/eai/module/http/server/renderer/Renderer.java:122-127 | The result is the least index of a matching pattern. None means that no pattern matches. |
| Agents.FirstMatchAppend | src/main/java/be/nabu/eai/module/http/server/renderer/Renderer.java:104 | Patterns appended after the defaults never change a match the defaults already make. |
| Agents.FirstMatchAfter | src/main/java/be/nabu/eai/module/http/server/renderer/RendererArtifact.java:75-77 | When no default matches, the first matching configured pattern decides. Its index is offset by the number of defaults. |
| Agents.MultiLineNeverMatchesWildcard | src/main/java/be/nabu/eai/module/http/server/renderer/Renderer.java:53-85 | `.*` does not cross line terminators, so a value containing one never matches a built-in pattern. |
| Agents.BotIsCaught | src/main/java/be/nabu/eai/module/http/server/renderer/Renderer.java:85 | Every single-line value containing "bot" in any ASCII case matches the catch-all pattern. |
| Agents.GooglebotContainsSignature | src/main/java/be/nabu/eai/module/http/server/renderer/Renderer.java:53 | The Googlebot user agent contains the first built-in signature. |
| Agents.GooglebotIsSingleLine | src/main/java/be/nabu/eai/module/http/server/renderer/Renderer.java:53 | The Googlebot user agent has no line terminator. |
| Agents.GooglebotScenario | src/main/java/be/nabu/eai/module/http/server/renderer/Renderer.java:122-127 | A Googlebot user agent is decided by the first built-in pattern, whatever patterns are configured after it. |
| Cdata.SpaceRun | src/main/java/be/nabu/eai/module/http/server/renderer/Renderer.java:280 | The run of `\s` characters from a position is maximal. |
| Cdata.MatchLengthIsRegexMatch | src/main/java/be/nabu/eai/module/http/server/renderer/Renderer.java:280-281 | The match found is the only match of `//[\s]*marker` at that position. Backtracking the greedy `\s*` finds no other. |
| Cdata.RemoveAll | src/main/java/be/nabu/eai/module/http/server/renderer/Renderer.java:280 | One pass never lengthens the text. |
| Cdata.StripCdata | src/main/java/be/nabu/eai/module/http/server/renderer/Renderer.java:277-283 | The two passes never lengthen the text. |
| Cdata.RemoveAllKeepsOrder | src/main/java/be/nabu/eai/module/http/server/renderer/Renderer.java:280-281 | One pass only deletes characters. What is left is a subsequence of its input. |
| Cdata.StripCdataKeepsOrder | src/main/java/be/nabu/eai/module/http/server/renderer/Renderer.java:277-283 | After both passes every character left comes from the page, in its original order. |
| Cdata.KeptPrefix | src/main/java/be/nabu/eai/module/http/server/renderer/Renderer.java:280-281 | Text in which no match of the pattern starts is kept as it is, and the pass goes on with the rest. |
| Cdata.NoDoubleSlashHasNoMatch | src/main/java/be/nabu/eai/module/http/server/renderer/Renderer.java:280-281 | No match starts in text that never has two slashes in a row. |
| Cdata.RemoveMarkerAfterUnmatched | src/main/java/be/nabu/eai/module/http/server/renderer/Renderer.java:280 | An occurrence of the pattern after text in which no match starts is deleted, and the pass carries on after it. |
| Cdata.SkipOtherMarker | src/main/java/be/nabu/eai/module/http/server/renderer/Renderer.java:280-281 | A pass leaves the other pass's marker in place. |
| Cdata.StripScriptMarkers | src/main/java/be/nabu/eai/module/http/server/renderer/Renderer.java:277-283 | A serialised script `a //<![CDATA[ b //]]> c` becomes exactly `a b c`, for any whitespace inside the markers, when no other match of either pattern starts in `a`, `b` or `c`. |
| Cdata.StripScriptBeforeClosingTag | src/main/java/be/nabu/eai/module/http/server/renderer/Renderer.java:277-283 | The same holds when `a` and `b` have no slash and `c` never has two slashes in a row, so `c` may hold `</script>`. |
| Cdata.ScriptElementIsCleaned | src/main/java/be/nabu/eai/module/http/server/renderer/Renderer.java:277-283 | `<script>//<![CDATA[` … `//]]>\n</script>` loses both markers and keeps everything else, closing tag included. |
| RenderCache.Cache.Get | src/main/java/be/nabu/eai/module/http/server/renderer/Renderer.java:146-154 | `get` yields the stored bytes or nothing, or raises on the provider's failing keys. |
| RenderCache.Cache.GetEntry | src/main/java/be/nabu/eai/module/http/server/renderer/RendererArtifact.java:204 | `getEntry` yields the entry and its write time. It never raises. |
| RenderCache.Cache.Put | src/main/java/be/nabu/eai/module/http/server/renderer/Renderer.java:163 | `put` stores the bytes stamped with the given time, or raises and changes nothing. It raises on its own set of keys, which may include keys that `get` reads without error. |
| RenderCache.Cache.Refresh | src/main/java/be/nabu/eai/module/http/server/renderer/RendererArtifact.java:164-176 | A refresh stores the recalculated bytes. A failed recalculation or a key the provider cannot write leaves the entries as they were. |
| RenderCache.StoreThenLookup | src/main/java/be/nabu/eai/module/http/server/renderer/Renderer.java:156-168 | What is put is read back byte for byte, unless reading that key raises. The entry with its write time is always there. |
| RenderCache.StoreOtherKeys | src/main/java/be/nabu/eai/module/http/server/renderer/Renderer.java:163 | A put changes no other key. |
| WebApps.IsSecure | src/main/java/be/nabu/eai/module/http/server/renderer/Renderer.java:106-108 | With a virtual host that has a server, the flag is that server's secure flag. Without one it is false. |
| Renderer.WrapIntoResponseContract | src/main/java/be/nabu/eai/module/http/server/renderer/Renderer.java:191-201 | The code is 204 iff there are no bytes, and 200 otherwise. A 204 carries `Content-Length: 0`, no body and no type. A 200 carries the bytes, `text/html` and a length whose digits read back as the byte count. |
| Renderer.ExecuteResponds | src/main/java/be/nabu/eai/module/http/server/renderer/Renderer.java:186-201 | `execute` fails exactly when the render fails, with the render's status. Otherwise the code is 204 with `Content-Length: 0` and no body iff the page has no bytes, and else 200 with the bytes as body. The Content-Length reads back as the byte count. |
| Renderer.HtmlPagesAreStripped | src/main/java/be/nabu/eai/module/http/server/renderer/Renderer.java:255-283 | An HTML page is encoded after CDATA stripping, keeping the page's characters in order. |
| Renderer.PassIff | src/main/java/be/nabu/eai/module/http/server/renderer/Renderer.java:112-184 | `handle` returns null iff the request carries the marker, or neither the path regex matches nor a User-Agent matches some pattern. |
| Renderer.NoUserAgentOnlyPath | src/main/java/be/nabu/eai/module/http/server/renderer/Renderer.java:117-131 | Without a User-Agent only the path regex can trigger a render. |
| Renderer.GooglebotIsRendered | src/main/java/be/nabu/eai/module/http/server/renderer/Renderer.java:117-131 | A Googlebot request passes the gate with the built-in patterns. |
| Renderer.MarkerAlwaysPasses | src/main/java/be/nabu/eai/module/http/server/renderer/Renderer.java:113-115 | A request with `Nabu-Renderer` is passed on untouched, whatever its path, agent or cache. |
| Renderer.HitDoesNotRender | src/main/java/be/nabu/eai/module/http/server/renderer/Renderer.java:146-156 | On a hit the response wraps exactly the cached bytes. The cache is unchanged, and any other browser gives the same outcome. |
| Renderer.MissThenHit | src/main/java/be/nabu/eai/module/http/server/renderer/Renderer.java:156-181 | A miss renders with the bot options and stores the bytes under the URI. The identical request that follows is a hit with the same response. |
| Renderer.RenderThenPutFails | src/main/java/be/nabu/eai/module/http/server/renderer/Renderer.java:156-168 | A miss whose render succeeds but whose cache write raises gives a 500, and the cache is left as it was. |
| Renderer.BadUriFails | src/main/java/be/nabu/eai/module/http/server/renderer/Renderer.java:133-138 | A URI that cannot be computed gives a 500 before the cache is read. |
| Renderer.Renderer.constructor | src/main/java/be/nabu/eai/module/http/server/renderer/Renderer.java:98-109 | A renderer starts with the built-in agent list, no path regex and the application's secure flag. |
| Renderer.Renderer.SetPathRegex | src/main/java/be/nabu/eai/module/http/server/renderer/Renderer.java:309-311 | Sets the path regex. |
| Renderer.Renderer.AddAgents | src/main/java/be/nabu/eai/module/http/server/renderer/RendererArtifact.java:75-77 | Additions go after the existing patterns, in order. |
| Renderer.Renderer.Handle | src/main/java/be/nabu/eai/module/http/server/renderer/Renderer.java:112-184 | The agent loop, the cache reads and writes and the response equal the coordinator function on the old cache state, including the new cache state. |
| Bridge.CopyHeadersLookup | src/main/java/be/nabu/eai/module/http/server/renderer/WebConnectionImpl.java:77-82 | A lookup among the copied headers finds the browser's first header of that name, ignoring ASCII case. It finds nothing iff the browser sent no header of that name. |
| Bridge.BuildOutbound | src/main/java/be/nabu/eai/module/http/server/renderer/WebConnectionImpl.java:66-109 | The header rewriting steps produce exactly the outbound request function. |
| Bridge.CopyResponseHeaders | src/main/java/be/nabu/eai/module/http/server/renderer/WebConnectionImpl.java:190-196 | The header loop yields the filter function's list. |
| Bridge.FixHostSetsHost | src/main/java/be/nabu/eai/module/http/server/renderer/WebConnectionImpl.java:82-94 | After the Host step the first Host header is the URL's host. Other headers are kept, and a Host that already agrees is left untouched. |
| Bridge.FixedKeepsOthers | src/main/java/be/nabu/eai/module/http/server/renderer/WebConnectionImpl.java:82-98 | The Host and User-Agent steps keep every other browser header. |
| Bridge.BridgeRequestsAreNotRendered | src/main/java/be/nabu/eai/module/http/server/renderer/WebConnectionImpl.java:100 | Every internal request carries `Nabu-Renderer`, so the renderer's handler passes it on. |
| Bridge.OutboundHostAndAgent | src/main/java/be/nabu/eai/module/http/server/renderer/WebConnectionImpl.java:82-98 | The request's Host is the URL's host. Its User-Agent is the browser's own or `Nabu-Renderer/1.0`. |
| Bridge.SsrHeaderIff | src/main/java/be/nabu/eai/module/http/server/renderer/WebConnectionImpl.java:102-104 | The request-type header `ssr` is sent iff the connection is in ssr mode. |
| Bridge.AuthHeaderIff | src/main/java/be/nabu/eai/module/http/server/renderer/WebConnectionImpl.java:106-109 | The authentication header is sent iff the connection has a token. |
| Bridge.ClientOnlyWhenUnserved | src/main/java/be/nabu/eai/module/http/server/renderer/WebConnectionImpl.java:140-149 | The HTTP client is consulted only when dispatch yields nothing. It is then called only with `secure` = "target starts with https://". |
| Bridge.ObtainFailsOnlyWhen | src/main/java/be/nabu/eai/module/http/server/renderer/WebConnectionImpl.java:111-172 | Getting a response fails iff request rewriting raised, or nobody answered and the client failed or returned null. |
| Bridge.FilterHeadersAppend | src/main/java/be/nabu/eai/module/http/server/renderer/WebConnectionImpl.java:190-196 | Filtering works header by header, keeping their order. |
| Bridge.FilterHeadersMembers | src/main/java/be/nabu/eai/module/http/server/renderer/WebConnectionImpl.java:190-196 | Exactly the headers other than Content-Encoding and Transfer-Encoding (any case) are returned. |
| Bridge.SessionAfterInjection | src/main/java/be/nabu/eai/module/http/server/renderer/WebConnectionImpl.java:182-188 | Once the script is in, every later body passes unchanged. |
| Bridge.InjectedIntoFirstOnly | src/main/java/be/nabu/eai/module/http/server/renderer/WebConnectionImpl.java:182-188 | The script plus a blank line is prepended to the first JavaScript body of a connection and to no other body. |
| Bridge.NoScriptNoInjection | src/main/java/be/nabu/eai/module/http/server/renderer/WebConnectionImpl.java:182-188 | Without a JavaScript response, or without a script, no body changes. |
| Bridge.UntypedBodyFailsBeforeInjection | src/main/java/be/nabu/eai/module/http/server/renderer/WebConnectionImpl.java:181-182 | A body without a content type raises while injection is still pending. |
| Bridge.ServeAfterInjection | src/main/java/be/nabu/eai/module/http/server/renderer/WebConnectionImpl.java:182-188 | After injection `getResponse` keeps the flag and returns the body as fetched. |
| Bridge.WebConnection.constructor | src/main/java/be/nabu/eai/module/http/server/renderer/WebConnectionImpl.java:51-56 | A new connection has not injected, is not in ssr mode and has no script. |
| Bridge.WebConnection.SetJavascriptToInject | src/main/java/be/nabu/eai/module/http/server/renderer/WebConnectionImpl.java:209-211 | Sets the script. |
| Bridge.WebConnection.SetSsr | src/main/java/be/nabu/eai/module/http/server/renderer/WebConnectionImpl.java:217-219 | Sets ssr mode. |
| Bridge.WebConnection.GetResponse | src/main/java/be/nabu/eai/module/http/server/renderer/WebConnectionImpl.java:63-203 | The result and the new `injected` flag equal the serve function. On every error the flag stays as it was. |
| Artifact.GetKey | src/main/java/be/nabu/eai/module/http/server/renderer/RendererArtifact.java:152-154 | The key is one character longer than the id and the path together. Its decomposition into id, colon and path is stated by `FirstColon`, `GetKeySameId` and `GetKeyInjective`. |
| Artifact.ConfiguredFirstMatch | src/main/java/be/nabu/eai/module/http/server/renderer/RendererArtifact.java:75-77 | Scanning the configured agents finds the first configured regex that matches the User-Agent. It finds nothing iff none matches or none is configured. |
| Artifact.ConfiguredAgentsDecide | src/main/java/be/nabu/eai/module/http/server/renderer/Renderer.java:122-127 | When no earlier pattern matches, the renderer's scan matches iff some configured regex matches. It then stops at the first configured regex that does, offset by the earlier patterns. |
| Artifact.CacheSpecOtherKeys | src/main/java/be/nabu/eai/module/http/server/renderer/RendererArtifact.java:200-232 | `cache()` touches no other key. |
| Artifact.CacheSpecCaches | src/main/java/be/nabu/eai/module/http/server/renderer/RendererArtifact.java:200-232 | After `cache()` the URL is cached, unless its render failed or the provider raised on reading or writing it. A URL that was not cached before then holds the freshly rendered bytes, stamped with the write time. |
| Artifact.ExplorableStaleness | src/main/java/be/nabu/eai/module/http/server/renderer/RendererArtifact.java:203-217 | An explorable entry is re-rendered only when lastModified is strictly after its write time. Otherwise nothing changes. |
| Artifact.PlainIgnoresLastModified | src/main/java/be/nabu/eai/module/http/server/renderer/RendererArtifact.java:219-227 | A plain cache ignores lastModified and never replaces a present entry. |
| Artifact.FailedRenderKeepsCache | src/main/java/be/nabu/eai/module/http/server/renderer/RendererArtifact.java:229-231 | A failed render is swallowed and leaves the cache as it was. |
| Artifact.CachedInFailingKey | src/main/java/be/nabu/eai/module/http/server/renderer/RendererArtifact.java:184-198 | A key that is stored but raises on read counts as cached iff the cache is explorable. A plain cache's IOException gives false. |
| Artifact.PrefilledEntryIsServed | src/main/java/be/nabu/eai/module/http/server/renderer/RendererArtifact.java:234-240 | An entry filled by `cache()` is what a crawler asking for that URI is served. For a URL that was not cached before, that is exactly the page `calculateCache` rendered. |
| Artifact.FirstColon | src/main/java/be/nabu/eai/module/http/server/renderer/RendererArtifact.java:152-154 | In a key built from a colon-free id, the separator is the first colon. |
| Artifact.GetKeySameId | src/main/java/be/nabu/eai/module/http/server/renderer/RendererArtifact.java:152-154 | The keys of one application are distinct per path, whatever its id contains. |
| Artifact.GetKeyInjective | src/main/java/be/nabu/eai/module/http/server/renderer/RendererArtifact.java:152-154 | For colon-free ids, keys of different applications or different paths are distinct. |
| Artifact.StopKeepsApplicationCache | src/main/java/be/nabu/eai/module/http/server/renderer/RendererArtifact.java:132-139 | `stop` removes `id:path` from the cache map, so the cache stored under the bare id survives. |
| Artifact.WarmUpCount | src/main/java/be/nabu/eai/module/http/server/renderer/RendererArtifact.java:86-96 | With no language provider there is one warm-up render. An empty language list gives none. |
| Artifact.LoadRequestShape | src/main/java/be/nabu/eai/module/http/server/renderer/RendererArtifact.java:110-119 | A warm-up load is a GET of the server path with `Content-Length: 0`. Its Host is the virtual host's, or localhost. It carries the language cookie iff there is a language, and it carries no marker. |
| Artifact.LoadAllFailsWithFirst | src/main/java/be/nabu/eai/module/http/server/renderer/RendererArtifact.java:88-91 | The first failing warm-up render aborts, with its status. |
| Artifact.LoadAllSucceeds | src/main/java/be/nabu/eai/module/http/server/renderer/RendererArtifact.java:88-96 | Warm-up succeeds iff every language's render succeeds. |
| Artifact.RendererArtifact.constructor | src/main/java/be/nabu/eai/module/http/server/renderer/RendererArtifact.java:60-61 | A new artifact has no caches and no subscriptions. |
| Artifact.RendererArtifact.GetCache | src/main/java/be/nabu/eai/module/http/server/renderer/RendererArtifact.java:160-182 | The result is null without a provider. Otherwise an empty cache is created on the first call for an id, and later calls return that same instance. |
| Artifact.RendererArtifact.IsCached | src/main/java/be/nabu/eai/module/http/server/renderer/RendererArtifact.java:184-198 | The result is the cached-in predicate on the application's cache, or false when there is none. A cache created on the way is fresh and empty, is added under the application id, and is the only change to the cache map. |
| Artifact.RendererArtifact.CacheUrl | src/main/java/be/nabu/eai/module/http/server/renderer/RendererArtifact.java:200-232 | The application's cache becomes the `cache()` function of its old state, starting from an empty state when it is created here. The cache map gains at most the application id, and only with a provider. Other caches are untouched. |
| Artifact.RendererArtifact.Start | src/main/java/be/nabu/eai/module/http/server/renderer/RendererArtifact.java:67-99 | The renderer gets the defaults plus the configured agents, and the development path regex in development. It is subscribed under `id:path`. A cache created for it is fresh and empty, and is the only change to the cache map. Warm-up happens only outside development, with warm-up enabled and a virtual host, and its outcome is the load sequence's. |
| Artifact.RendererArtifact.Stop | src/main/java/be/nabu/eai/module/http/server/renderer/RendererArtifact.java:121-140 | The subscription is cancelled and forgotten. An unknown key changes nothing. The application's cache is kept. |
| Resources.ContainsTextIff | src/main/java/be/nabu/eai/module/http/server/renderer/EventResource.java:38 | `contains` holds iff the text occurs at some position. |
| Resources.InferContentTypeCases | src/main/java/be/nabu/eai/module/http/server/renderer/EventResource.java:33-47 | A given type is kept. Otherwise the type is css iff the path contains "css". It is javascript iff the path does not contain css and it ends in "js" or contains "javascript". It is html otherwise. |
| Resources.ScriptPath | src/main/java/be/nabu/eai/module/http/server/renderer/EventResource.java:41-42 | `/app/main.js` is JavaScript. |
| Resources.StyleBeatsScript | src/main/java/be/nabu/eai/module/http/server/renderer/EventResource.java:38-40 | The css check wins: `/app/theme.css.js` is CSS. |
| Resources.PagePath | src/main/java/be/nabu/eai/module/http/server/renderer/EventResource.java:44-46 | `/app/index` is HTML. |
| Resources.ReadRequestShape | src/main/java/be/nabu/eai/module/http/server/renderer/EventResource.java:72-74 | Reading is a GET of the path with `Content-Length: 0`. Its Host is the authority, or localhost. |
| Resources.ReadSucceedsIff | src/main/java/be/nabu/eai/module/http/server/renderer/EventResource.java:83-101 | Reading succeeds iff there is a 2xx answer with a content part. It then yields that part's body. |
| Resources.ReadContentType | src/main/java/be/nabu/eai/module/http/server/renderer/EventResource.java:89-95 | The stored type changes only to a type the answer declares, never on a missing or unsuccessful answer. |
| Resources.EventResource.constructor | src/main/java/be/nabu/eai/module/http/server/renderer/EventResource.java:33-48 | The content type is the inferred one. |
| Resources.EventResource.GetReadable | src/main/java/be/nabu/eai/module/http/server/renderer/EventResource.java:71-102 | The result and the new content type equal the read function on the dispatcher's answer. |
| Services.UpperCaseMeaning | src/main/java/nabu/web/renderer/Services.java:91 | Upper-casing keeps the length and leaves no ASCII lower-case letter. It changes only letters, so the result equals the input ignoring case. Upper-casing twice changes nothing. |
| Services.SsrFlag | src/main/java/nabu/web/renderer/Services.java:95 | ssr is on unless `disableSsrBypass` is explicitly true. |
| Services.CssFlag | src/main/java/nabu/web/renderer/Services.java:96 | css is off iff `disableCss` is explicitly true. |
| Services.BuildRequest | src/main/java/nabu/web/renderer/Services.java:50-91 | The host chain and part defaulting produce the service request function. |
| Services.Execute | src/main/java/nabu/web/renderer/Services.java:50-105 | The response or error equals the service function. |
| Services.UnknownApplicationFirst | src/main/java/nabu/web/renderer/Services.java:51-54 | An unknown application is refused before anything else, whatever the other arguments are. |
| Services.HostPrecedence | src/main/java/nabu/web/renderer/Services.java:56-62 | The host is the argument, else the URL's host, else the virtual host's. The last step fails without a virtual host. |
| Services.PreparedPartHost | src/main/java/nabu/web/renderer/Services.java:64-71 | Without a part, the part has exactly Host and `Content-Length: 0`. A caller's Host is kept. A part without one gains exactly one Host header after its own headers, and its body is kept. |
| Services.ServiceRequestShape | src/main/java/nabu/web/renderer/Services.java:64-91 | The rendered request has the URL, the normalised method and a Host. |
| Services.PreparePartFailsIff | src/main/java/nabu/web/renderer/Services.java:69-91 | Only a part that cannot be modified is refused. |
| Services.NormalizeMethodUpper | src/main/java/nabu/web/renderer/Services.java:91 | The method is GET by default and otherwise upper-case. Normalising twice changes nothing. |

## Left out

- **Headless browser.** HtmlUnit's page loading, background-script waiting, options and page-type extraction are represented by `Renderer.Env.engine`, which returns the kind of page and its text.
- **Encoding, URIs and content types.** UTF-8 encoding, `HTTPUtils.getURI`, `java.net.URI` parsing and `MimeUtils.getContentType` are parameters.
- **Configured regexes.** `String.matches` for configured patterns and the path regex is a parameter. The built-in patterns are modelled exactly; their `(?i)` flag without UNICODE_CASE folds ASCII letters only, as the model does.
- **Invalid regexes.** `String.matches` raises `PatternSyntaxException` out of `handle` when a configured agent pattern or the path regex is not a valid regular expression. The parameter `Renderer.Env.matches` always answers true or false, so the model has no such error path.
- **Unicode case folding of header names.** Header names are compared with ASCII case folding (`Http.EqualsIgnoreCase`), while Java's `equalsIgnoreCase` also folds non-ASCII letters. Java therefore finds or drops a header whose name differs from the one looked up only by such a letter (for instance `Tranſfer-Encoding` with U+017F); the model's lookups, `RemoveHeader` and `FilterHeaders` do not.
- **External collaborators.** The dispatcher, its subscription priorities (`promote`), the exception formatter, the HTTP client and the cache provider's storage and scheduling are parameters or are reduced to maps.
  - A cache the provider creates starts empty; persistent provider content is not modelled.
  - The artifact calls the provider's `create` with its own id for every application, so all of an artifact's caches share one name. The model treats each `create` call as giving a separate, empty cache. A provider that looks caches up by name would make applications share storage, and then the frame "other caches are untouched" of `CacheUrl` would not hold.
  - The provider's refresh callback re-parses the key as a URI (`new URI`). The model assumes that the parsed URI stands for the same URL.
- **Concurrency.** The `synchronized` double checks in `getCache` and `stop` are not modelled: the maps are sequential.
- **Observability.** Notifications, logging and timing have no effect on results.
- **Constructor delegation.** The second `EventResource` constructor delegates to `URIUtils.getChild`, which is not part of this model.
- **Out of scope.** `EventResourceResolver`, `RendererGUIManager`, `RendererManager` and the `RendererConfiguration` bean are not modelled. Nor are `Services.cache` (a thin call of the artifact's `cache()`, modelled as `CacheUrl`) or the `ServiceRuntime` unregistering around renders.
- **Header values.** Header values are whole values: the mime library's split into value and comments is not modelled. The Host comparison in the bridge therefore compares whole values.
- **Null values.** A Java null header value (a URI without a host, or a virtual host without a configured host) is written as the empty value. `URL.getHost()` is never null, so the bridge's null test is always passed.
- Services.Execute: the HTTP client is not modelled. The service resolves `httpClientId` and builds a client with `newClient`, and wraps a failure there in a `RuntimeException`; the model has no client argument and no error for that path.
- Services.Execute: the caller's part object gains its Host header in place; the model returns the amended part as a value instead of aliasing the caller's object.
- Services.UpperCaseMeaning: `toUpperCase` is modelled for ASCII letters only. Java's default-locale `toUpperCase` maps 'ß' to "SS", which changes the length, and in a Turkish locale maps 'i' to 'İ'; the model's length and `EqualsIgnoreCase` claims do not cover those.
- Artifact.RendererArtifact.Start: `start` calls `getHttpClient()` first (RendererArtifact.java:69). Its `RuntimeException` (RendererArtifact.java:101-107) aborts `start` before any cache, agent list or subscription exists; the model always subscribes.
- Artifact.RendererArtifact.CacheUrl: `calculateCache` calls `getHttpClient()` again (RendererArtifact.java:239). An exception there is swallowed by the catch in `cache()` (RendererArtifact.java:229-231), so nothing is stored, while `CacheSpec` stores whenever `CalculateCache` succeeds.
- Renderer.Renderer.Handle: the artifact's `getHttpClient` and the client passed to renderers are not modelled; the browser's network side is the bridge's `Collaborators`.
- Artifact.RendererArtifact.Start: starting the same `id:path` twice replaces the recorded subscription without cancelling the first one. The model keeps that behaviour (the first renderer stays in `live`) but proves no lemma about it.
