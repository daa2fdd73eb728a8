/**
  A resource served by an application's own dispatcher (`EventResource.java`):
  its content type is guessed from the URI path when none is given, and
  reading it dispatches a GET to the application and checks the answer.
  The dispatcher and `MimeUtils.getContentType` are parameters.
*/
module Resources {
  import opened Wrappers
  import opened Http

  predicate TextAt(s: string, t: string, i: int)
  {
    0 <= i && i + |t| <= |s| && s[i..i + |t|] == t
  }

  /** `String.contains`. */
  predicate ContainsText(s: string, t: string)
    decreases |s|
  {
    |t| <= |s| && (s[..|t|] == t || ContainsText(s[1..], t))
  }

  lemma {:induction false} ContainsTextIff(s: string, t: string)
    ensures ContainsText(s, t) <==> exists i :: TextAt(s, t, i)
    decreases |s|
  {
    if |t| <= |s| {
      if |s| > 0 {
        ContainsTextIff(s[1..], t);
      }
      if s[..|t|] == t {
        assert TextAt(s, t, 0);
      } else if ContainsText(s[1..], t) {
        var i :| TextAt(s[1..], t, i);
        assert s[1..][i..i + |t|] == s[i + 1..i + 1 + |t|];
        assert TextAt(s, t, i + 1);
      } else if exists i :: TextAt(s, t, i) {
        var i :| TextAt(s, t, i);
        assert i != 0;
        assert s[1..][i - 1..i - 1 + |t|] == s[i..i + |t|];
        assert TextAt(s[1..], t, i - 1);
      }
    }
  }

  /** A text cannot occur where its first character does not. */
  lemma {:induction false} AbsentFirstChar(s: string, t: string)
    requires |t| > 0 && t[0] !in s
    ensures !ContainsText(s, t)
    decreases |s|
  {
    if |t| <= |s| {
      assert s[..|t|][0] == s[0];
      AbsentFirstChar(s[1..], t);
    }
  }

  predicate EndsWith(s: string, t: string)
  {
    |t| <= |s| && s[|s| - |t|..] == t
  }

  const CssType := "text/css"
  const HtmlType := "text/html"

  /** The constructor's content type: the given one, or a guess from the path
      in which "css" anywhere beats a script-looking path. */
  function InferContentType(path: string, given: Option<string>): string
  {
    if given.Some? then given.value
    else if ContainsText(path, "css") then CssType
    else if EndsWith(path, "js") || ContainsText(path, "javascript") then JavascriptType
    else HtmlType
  }

  lemma InferContentTypeCases(path: string, given: Option<string>)
    ensures given.Some? ==> InferContentType(path, given) == given.value
    ensures given.None? ==> InferContentType(path, given) in {CssType, JavascriptType, HtmlType}
    ensures given.None? ==> (InferContentType(path, given) == CssType <==> ContainsText(path, "css"))
    ensures given.None? ==> (InferContentType(path, given) == JavascriptType <==>
      !ContainsText(path, "css") && (EndsWith(path, "js") || ContainsText(path, "javascript")))
  {
  }

  /** A script path is recognised, and a stylesheet-looking one wins over it. */
  lemma ScriptPath()
    ensures InferContentType("/app/main.js", None) == JavascriptType
  {
    var path := "/app/main.js";
    assert 'c' !in path;
    AbsentFirstChar(path, "css");
    assert path[|path| - 2..] == "js";
  }

  lemma StyleBeatsScript()
    ensures InferContentType("/app/theme.css.js", None) == CssType
  {
    var path := "/app/theme.css.js";
    assert TextAt(path, "css", 11);
    ContainsTextIff(path, "css");
  }

  lemma PagePath()
    ensures InferContentType("/app/index", None) == HtmlType
  {
    var path := "/app/index";
    assert 'c' !in path && 'j' !in path;
    AbsentFirstChar(path, "css");
    AbsentFirstChar(path, "javascript");
    assert path[|path| - 2..] != "js";
  }

  datatype ResourceError = NoResponseProvided | NotSuccessful(code: int) | NoResponseContent

  /** What `getReadable` dispatches. */
  function ReadRequest(uri: Uri): HttpRequest
  {
    HttpRequest("GET", uri.path, Some(EmptyPart(
      [Header("Content-Length", "0"), Header("Host", if uri.authority.Some? then uri.authority.value else "localhost")])))
  }

  /** The outcome of `getReadable` and the content type the resource has after it. */
  function Read(response: Option<HttpResponse>, contentTypeOf: seq<Header> -> Option<string>, current: string)
    : (Result<Option<Bytes>, ResourceError>, string)
  {
    if response.None? then (Failure(NoResponseProvided), current)
    else if response.value.code < 200 || response.value.code >= 300 then (Failure(NotSuccessful(response.value.code)), current)
    else
      var content := response.value.content;
      var updated := if content.Some? && contentTypeOf(content.value.headers).Some? then contentTypeOf(content.value.headers).value else current;
      if content.Some? && content.value.ContentPart? then (Success(content.value.readable), updated)
      else (Failure(NoResponseContent), updated)
  }

  lemma ReadRequestShape(uri: Uri)
    ensures var r := ReadRequest(uri); var hs := r.content.value.headers;
      && r.verb == "GET" && r.target == uri.path && r.content.value.EmptyPart?
      && GetHeader(hs, "Content-Length") == Some(Header("Content-Length", "0"))
      && GetHeader(hs, "Host").Some?
      && GetHeader(hs, "Host").value.value == (if uri.authority.Some? then uri.authority.value else "localhost")
  {
    var hs := ReadRequest(uri).content.value.headers;
    assert Named(hs[0], "Content-Length");
    assert !Named(hs[0], "Host") && Named(hs[1], "Host");
    assert hs[1..][0] == hs[1];
  }

  /** Reading succeeds exactly on a 2xx answer with a content part, and then
      yields that part's body. */
  lemma ReadSucceedsIff(response: Option<HttpResponse>, contentTypeOf: seq<Header> -> Option<string>, current: string)
    ensures Read(response, contentTypeOf, current).0.Success? <==>
      response.Some? && 200 <= response.value.code < 300
      && response.value.content.Some? && response.value.content.value.ContentPart?
    ensures Read(response, contentTypeOf, current).0.Success? ==>
      Read(response, contentTypeOf, current).0.value == response.value.content.value.readable
  {
  }

  /** The stored type changes only to a type the answer declares, and never
      on a missing or unsuccessful answer. */
  lemma ReadContentType(response: Option<HttpResponse>, contentTypeOf: seq<Header> -> Option<string>, current: string)
    ensures var t := Read(response, contentTypeOf, current).1;
      t == current || (response.Some? && response.value.content.Some? && contentTypeOf(response.value.content.value.headers) == Some(t))
    ensures response.None? || response.value.code < 200 || response.value.code >= 300 ==> Read(response, contentTypeOf, current).1 == current
    ensures response.Some? && 200 <= response.value.code < 300 && response.value.content.Some?
            && contentTypeOf(response.value.content.value.headers).Some?
            ==> Read(response, contentTypeOf, current).1 == contentTypeOf(response.value.content.value.headers).value
  {
  }

  class EventResource {
    const uri: Uri
    var contentType: string

    constructor (uri: Uri, contentType: Option<string>)
      ensures this.uri == uri && this.contentType == InferContentType(uri.path, contentType)
    {
      this.uri := uri;
      if contentType.Some? {
        this.contentType := contentType.value;
      } else if ContainsText(uri.path, "css") {
        this.contentType := CssType;
      } else if EndsWith(uri.path, "js") || ContainsText(uri.path, "javascript") {
        this.contentType := JavascriptType;
      } else {
        this.contentType := HtmlType;
      }
    }

    method GetReadable(dispatch: HttpRequest -> Option<HttpResponse>, contentTypeOf: seq<Header> -> Option<string>)
      returns (r: Result<Option<Bytes>, ResourceError>)
      modifies this`contentType
      ensures (r, contentType) == Read(dispatch(ReadRequest(uri)), contentTypeOf, old(contentType))
    {
      var response := dispatch(ReadRequest(uri));
      if response.None? {
        return Failure(NoResponseProvided);
      }
      if response.value.code < 200 || response.value.code >= 300 {
        return Failure(NotSuccessful(response.value.code));
      }
      var content := response.value.content;
      if content.Some? {
        var declared := contentTypeOf(content.value.headers);
        if declared.Some? {
          contentType := declared.value;
        }
      }
      if content.Some? && content.value.ContentPart? {
        r := Success(content.value.readable);
      } else {
        r := Failure(NoResponseContent);
      }
    }
  }
}
