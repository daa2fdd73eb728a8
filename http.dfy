/**
  The HTTP values the renderer passes around: headers, MIME parts,
  requests and responses, with the case-insensitive header lookup the
  mime library offers.  The mime classes themselves are not part of this
  model: a part's headers are an ordered list, `setHeader` appends,
  `removeHeader` drops every header of that name and `getHeader` finds
  the first header whose name matches ignoring ASCII case.
*/
module Http {
  import opened Wrappers

  newtype byte = x: int | 0 <= x < 256

  type Bytes = seq<byte>

  /** The content type of scripts, both inferred for resources and tested
      before injecting into a response. */
  const JavascriptType := "application/javascript"

  datatype Header = Header(name: string, value: string)

  /** A MIME part: either a content part (its readable may be null) or an
      empty part without content. */
  datatype Part =
    | ContentPart(headers: seq<Header>, readable: Option<Bytes>)
    | EmptyPart(headers: seq<Header>)

  /** An authentication token; only its identity matters here. */
  datatype Token = Token(name: string)

  /** The `java.net.URI` accessors the renderer uses: `toString`, `getHost`,
      `getAuthority` (both may be null) and `getPath`. */
  datatype Uri = Uri(text: string, host: Option<string>, authority: Option<string>, path: string)

  /** A header value that is Java null is written as the empty value. */
  function ValueOrEmpty(v: Option<string>): string
  {
    if v.Some? then v.value else ""
  }

  datatype HttpRequest = HttpRequest(verb: string, target: string, content: Option<Part>)

  datatype HttpResponse = HttpResponse(code: int, message: string, content: Option<Part>)

  // ---------------------------------------------------------------- case

  function LowerAscii(c: char): (r: char)
    ensures 'A' <= c <= 'Z' ==> r as int == c as int + 32
    ensures !('A' <= c <= 'Z') ==> r == c
  {
    if 'A' <= c <= 'Z' then (c as int + 32) as char else c
  }

  /** `String.equalsIgnoreCase` restricted to ASCII letters. */
  predicate EqualsIgnoreCase(a: string, b: string)
  {
    |a| == |b| && forall i :: 0 <= i < |a| ==> LowerAscii(a[i]) == LowerAscii(b[i])
  }

  // ------------------------------------------------------------- headers

  predicate Named(h: Header, name: string)
  {
    EqualsIgnoreCase(h.name, name)
  }

  /** Position of the first header with that name, if any. */
  function FirstNamed(headers: seq<Header>, name: string): (r: Option<nat>)
    ensures r.None? <==> forall i :: 0 <= i < |headers| ==> !Named(headers[i], name)
    ensures r.Some? ==> r.value < |headers| && Named(headers[r.value], name)
    ensures r.Some? ==> forall j :: 0 <= j < r.value ==> !Named(headers[j], name)
  {
    if |headers| == 0 then None
    else if Named(headers[0], name) then Some(0)
    else
      var r := FirstNamed(headers[1..], name);
      if r.None? then None else Some(r.value + 1)
  }

  /** `MimeUtils.getHeader`: the first header with that name, if any. */
  function GetHeader(headers: seq<Header>, name: string): (r: Option<Header>)
    ensures r.None? <==> forall i :: 0 <= i < |headers| ==> !Named(headers[i], name)
    ensures r.Some? ==> Named(r.value, name) && r.value in headers
    ensures r.Some? ==> exists i :: 0 <= i < |headers| && headers[i] == r.value && forall j :: 0 <= j < i ==> !Named(headers[j], name)
  {
    var i := FirstNamed(headers, name);
    if i.None? then None else Some(headers[i.value])
  }

  predicate HasHeader(headers: seq<Header>, name: string)
  {
    GetHeader(headers, name).Some?
  }

  /** `removeHeader`: every header of that name is dropped and every other
      header is kept; `Bridge.GetHeaderRemoveOther` shows that lookups of
      other names are unchanged. */
  function RemoveHeader(headers: seq<Header>, name: string): (r: seq<Header>)
    ensures !HasHeader(r, name)
    ensures forall h :: h in r <==> h in headers && !Named(h, name)
    ensures |r| <= |headers|
  {
    if |headers| == 0 then []
    else if Named(headers[0], name) then RemoveHeader(headers[1..], name)
    else [headers[0]] + RemoveHeader(headers[1..], name)
  }

  function HeadersOf(p: Option<Part>): seq<Header>
  {
    if p.None? then [] else p.value.headers
  }

  lemma AppendedHeaderIsPresent(headers: seq<Header>, h: Header)
    ensures HasHeader(headers + [h], h.name)
  {
    var all := headers + [h];
    assert Named(all[|headers|], h.name);
  }

  lemma {:induction false} GetHeaderAppend(headers: seq<Header>, extra: seq<Header>, name: string)
    requires HasHeader(headers, name)
    ensures GetHeader(headers + extra, name) == GetHeader(headers, name)
  {
    if Named(headers[0], name) {
      assert (headers + extra)[0] == headers[0];
    } else {
      assert (headers + extra)[1..] == headers[1..] + extra;
      GetHeaderAppend(headers[1..], extra, name);
    }
  }

  lemma {:induction false} GetHeaderAppendOther(headers: seq<Header>, h: Header, name: string)
    requires !Named(h, name)
    ensures GetHeader(headers + [h], name) == GetHeader(headers, name)
  {
    if |headers| == 0 {
      assert [h][1..] == [];
    } else if Named(headers[0], name) {
      assert (headers + [h])[0] == headers[0];
    } else {
      assert (headers + [h])[1..] == headers[1..] + [h];
      GetHeaderAppendOther(headers[1..], h, name);
    }
  }

  lemma GetHeaderAppendFirst(headers: seq<Header>, h: Header)
    requires !HasHeader(headers, h.name)
    ensures GetHeader(headers + [h], h.name) == Some(h)
  {
    var all := headers + [h];
    assert Named(all[|headers|], h.name);
    assert forall j :: 0 <= j < |headers| ==> all[j] == headers[j];
  }
}
