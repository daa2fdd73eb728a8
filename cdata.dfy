/**
  The clean-up of serialised pages: the browser wraps every script body
  in `//<![CDATA[ ... //]]>`, which breaks client-side templates, so the
  renderer deletes both markers.  Each pass is a `String.replaceAll` with
  the pattern `//[\s]*<literal>`: the text is scanned left to right, the
  leftmost match is deleted, and scanning resumes after it.  The opening
  markers are removed first, the closing ones from what is left.
*/
module Cdata {
  import opened Wrappers

  const OpenMarker := "<![CDATA["
  const CloseMarker := "]]>"

  /** `\s` of `java.util.regex` (without UNICODE_CHARACTER_CLASS). */
  predicate IsSpace(c: char)
  {
    c == ' ' || c == '\t' || c == '\n' || c == '\U{000B}' || c == '\U{000C}' || c == '\r'
  }

  predicate AllSpaces(w: string)
  {
    forall k :: 0 <= k < |w| ==> IsSpace(w[k])
  }

  predicate NoSlash(u: string)
  {
    forall k :: 0 <= k < |u| ==> u[k] != '/'
  }

  /** A literal the pattern may end with: it cannot be eaten by `[\s]*` or by `//`. */
  predicate GoodLiteral(lit: string)
  {
    |lit| > 0 && !IsSpace(lit[0]) && lit[0] != '/'
  }

  /** End of the run of whitespace starting at `i`. */
  function SpaceRun(s: string, i: nat): (j: nat)
    requires i <= |s|
    ensures i <= j <= |s|
    ensures forall k :: i <= k < j ==> IsSpace(s[k])
    ensures j < |s| ==> !IsSpace(s[j])
    decreases |s| - i
  {
    if i < |s| && IsSpace(s[i]) then SpaceRun(s, i + 1) else i
  }

  /** Length of the match of `//[\s]*lit` at the start of `s`, taking the
      longest whitespace run as the greedy quantifier does. */
  function MatchLength(s: string, lit: string): (r: Option<nat>)
    ensures r.Some? ==> 2 <= r.value <= |s|
  {
    if |s| >= 2 && s[0] == '/' && s[1] == '/' then
      var j := SpaceRun(s, 2);
      if j + |lit| <= |s| && s[j..j + |lit|] == lit then Some(j + |lit|) else None
    else None
  }

  /** The regular expression's own reading: `//`, then `w` whitespace
      characters, then the literal. */
  predicate RegexMatch(s: string, lit: string, w: nat)
  {
    2 + w + |lit| <= |s| && s[..2] == "//" && AllSpaces(s[2..2 + w]) && s[2 + w..2 + w + |lit|] == lit
  }

  /** Backtracking cannot find another match: the pattern matches at the
      start of `s` exactly when the greedy reading does, and with the same length. */
  lemma MatchLengthIsRegexMatch(s: string, lit: string, w: nat)
    requires GoodLiteral(lit)
    ensures RegexMatch(s, lit, w) <==> MatchLength(s, lit) == Some(2 + w + |lit|)
  {
    if RegexMatch(s, lit, w) {
      assert s[0] == '/' && s[1] == '/' by { assert s[..2][0] == s[0] && s[..2][1] == s[1]; }
      var j := SpaceRun(s, 2);
      forall k | 2 <= k < 2 + w ensures IsSpace(s[k]) {
        assert s[2..2 + w][k - 2] == s[k];
      }
      assert s[2 + w] == lit[0] by { assert s[2 + w..2 + w + |lit|][0] == s[2 + w]; }
      assert j == 2 + w;
    }
    if MatchLength(s, lit) == Some(2 + w + |lit|) {
      var j := SpaceRun(s, 2);
      assert j == 2 + w;
      assert s[..2] == "//";
      SpacesSlice(s, 2, 2 + w);
    }
  }

  lemma SpacesSlice(s: string, i: nat, j: nat)
    requires i <= j <= |s|
    requires forall k :: i <= k < j ==> IsSpace(s[k])
    ensures AllSpaces(s[i..j])
  {
    var t := s[i..j];
    assert forall k :: 0 <= k < |t| ==> t[k] == s[i + k];
  }

  /** One `replaceAll(pattern, "")` pass. */
  function RemoveAll(s: string, lit: string): (r: string)
    ensures |r| <= |s|
    decreases |s|
  {
    if |s| == 0 then ""
    else
      match MatchLength(s, lit)
      case Some(n) => RemoveAll(s[n..], lit)
      case None => [s[0]] + RemoveAll(s[1..], lit)
  }

  /** The clean-up applied to HTML, text and XML pages before encoding. */
  function StripCdata(content: string): (r: string)
    ensures |r| <= |content|
  {
    RemoveAll(RemoveAll(content, OpenMarker), CloseMarker)
  }

  // ------------------------------------------------------ characters kept

  /** `a` is `b` with some characters deleted, the others kept in order. */
  predicate Subsequence(a: string, b: string)
    decreases |b|
  {
    if |a| == 0 then true
    else if |b| == 0 then false
    else (a[0] == b[0] && Subsequence(a[1..], b[1..])) || Subsequence(a, b[1..])
  }

  lemma {:induction false} SubsequenceOfSuffix(a: string, b: string, n: nat)
    requires n <= |b| && Subsequence(a, b[n..])
    ensures Subsequence(a, b)
    decreases n
  {
    if n > 0 {
      assert b[1..][n - 1..] == b[n..];
      SubsequenceOfSuffix(a, b[1..], n - 1);
    }
  }

  lemma {:induction false} SubsequenceTransitive(a: string, b: string, c: string)
    requires Subsequence(a, b) && Subsequence(b, c)
    ensures Subsequence(a, c)
    decreases |c|
  {
    if |a| > 0 {
      if b[0] == c[0] && Subsequence(b[1..], c[1..]) {
        if a[0] == b[0] && Subsequence(a[1..], b[1..]) {
          SubsequenceTransitive(a[1..], b[1..], c[1..]);
        } else {
          SubsequenceTransitive(a, b[1..], c[1..]);
          assert Subsequence(a, b[1..]);
          SubsequenceDropFirst(a, b);
        }
      } else {
        SubsequenceTransitive(a, b, c[1..]);
      }
    }
  }

  lemma {:induction false} SubsequenceDropFirst(a: string, b: string)
    requires |b| > 0 && Subsequence(a, b[1..])
    ensures Subsequence(a, b)
  {
  }

  /** A pass only deletes: every character it keeps appears in the input, in order. */
  lemma {:induction false} RemoveAllKeepsOrder(s: string, lit: string)
    ensures Subsequence(RemoveAll(s, lit), s)
    decreases |s|
  {
    if |s| > 0 {
      match MatchLength(s, lit)
      case Some(n) =>
        RemoveAllKeepsOrder(s[n..], lit);
        SubsequenceOfSuffix(RemoveAll(s, lit), s, n);
      case None =>
        RemoveAllKeepsOrder(s[1..], lit);
        var r := RemoveAll(s, lit);
        assert r[0] == s[0] && r[1..] == RemoveAll(s[1..], lit);
    }
  }

  lemma StripCdataKeepsOrder(content: string)
    ensures Subsequence(StripCdata(content), content)
  {
    RemoveAllKeepsOrder(content, OpenMarker);
    RemoveAllKeepsOrder(RemoveAll(content, OpenMarker), CloseMarker);
    SubsequenceTransitive(StripCdata(content), RemoveAll(content, OpenMarker), content);
  }

  // ----------------------------------------------------- what is deleted

  /** No match of `//[\s]*lit` starts inside `u` when `u` is followed by `rest`. */
  predicate NoMatchFrom(u: string, rest: string, lit: string)
  {
    forall q :: 0 <= q < |u| ==> MatchLength((u + rest)[q..], lit).None?
  }

  /** Text in which no match starts is copied as it is. */
  lemma {:induction false} KeptPrefix(u: string, rest: string, lit: string)
    requires NoMatchFrom(u, rest, lit)
    ensures RemoveAll(u + rest, lit) == u + RemoveAll(rest, lit)
    decreases |u|
  {
    if |u| > 0 {
      var s := u + rest;
      assert MatchLength(s[0..], lit).None?;
      assert s[0..] == s;
      assert s[0] == u[0] && s[1..] == u[1..] + rest;
      forall q | 0 <= q < |u[1..]| ensures MatchLength((u[1..] + rest)[q..], lit).None? {
        assert (u[1..] + rest)[q..] == s[q + 1..];
      }
      KeptPrefix(u[1..], rest, lit);
    } else {
      assert u + rest == rest;
    }
  }

  /** A match starts with `//`, so no match starts in slash-free text. */
  lemma SlashFreeHasNoMatch(u: string, rest: string, lit: string)
    requires NoSlash(u)
    ensures NoMatchFrom(u, rest, lit)
  {
    forall q | 0 <= q < |u| ensures MatchLength((u + rest)[q..], lit).None? {
      assert (u + rest)[q..][0] == u[q];
    }
  }

  /** Nor does one start in text without `//` that ends the page: a closing
      `</script>` tag is never touched. */
  lemma NoDoubleSlashHasNoMatch(u: string, lit: string)
    requires forall k :: 0 <= k < |u| - 1 ==> !(u[k] == '/' && u[k + 1] == '/')
    ensures NoMatchFrom(u, "", lit)
  {
    forall q | 0 <= q < |u| ensures MatchLength((u + "")[q..], lit).None? {
      assert u + "" == u;
      if q + 1 < |u| {
        assert u[q..][0] == u[q] && u[q..][1] == u[q + 1];
      }
    }
  }

  lemma SlashFreePrefix(u: string, rest: string, lit: string)
    requires NoSlash(u)
    ensures RemoveAll(u + rest, lit) == u + RemoveAll(rest, lit)
  {
    SlashFreeHasNoMatch(u, rest, lit);
    KeptPrefix(u, rest, lit);
  }

  lemma SpaceRunAcross(ws: string, lit: string, rest: string)
    requires AllSpaces(ws) && |lit| > 0 && !IsSpace(lit[0])
    ensures SpaceRun("//" + ws + lit + rest, 2) == 2 + |ws|
  {
    var s := "//" + ws + lit + rest;
    var j := SpaceRun(s, 2);
    forall k | 2 <= k < 2 + |ws| ensures IsSpace(s[k]) { assert s[k] == ws[k - 2]; }
    assert s[2 + |ws|] == lit[0];
  }

  /** An occurrence of the pattern right after text in which no match
      starts is deleted, and the rest of the text is treated on its own. */
  lemma RemoveMarkerAfterUnmatched(u: string, ws: string, lit: string, rest: string)
    requires AllSpaces(ws) && GoodLiteral(lit)
    requires NoMatchFrom(u, ("//" + ws + lit) + rest, lit)
    ensures RemoveAll(u + ("//" + ws + lit) + rest, lit) == u + RemoveAll(rest, lit)
  {
    var m := "//" + ws + lit;
    var s := m + rest;
    KeptPrefix(u, s, lit);
    assert u + m + rest == u + s;
    SpaceRunAcross(ws, lit, rest);
    assert s == "//" + ws + lit + rest;
    assert s[2 + |ws|..2 + |ws| + |lit|] == lit;
    assert MatchLength(s, lit) == Some(|m|);
    assert s[|m|..] == rest;
  }

  lemma KeepFirst(s: string, lit: string)
    requires |s| > 0 && MatchLength(s, lit).None?
    ensures RemoveAll(s, lit) == [s[0]] + RemoveAll(s[1..], lit)
  {
  }

  lemma NoSlashConcat(u: string, v: string)
    requires NoSlash(u) && NoSlash(v)
    ensures NoSlash(u + v)
  {
    forall k | 0 <= k < |u + v| ensures (u + v)[k] != '/' {
      if k < |u| { assert (u + v)[k] == u[k]; } else { assert (u + v)[k] == v[k - |u|]; }
    }
  }

  lemma SpacesHaveNoSlash(ws: string)
    requires AllSpaces(ws)
    ensures NoSlash(ws)
  {
    forall k | 0 <= k < |ws| ensures ws[k] != '/' { assert IsSpace(ws[k]); }
  }

  /** The other pass's marker does not match at its own `//`. */
  lemma OtherMarkerNoMatch(ws: string, other: string, lit: string, rest: string)
    requires AllSpaces(ws) && GoodLiteral(other) && GoodLiteral(lit) && other[0] != lit[0]
    ensures MatchLength(("//" + ws + other) + rest, lit).None?
  {
    var s := ("//" + ws + other) + rest;
    assert s == "//" + ws + other + rest;
    SpaceRunAcross(ws, other, rest);
    assert s[2 + |ws|] == other[0];
  }

  /** An occurrence of the other pass's pattern is left in place. */
  lemma SkipOtherMarker(ws: string, other: string, lit: string, rest: string)
    requires AllSpaces(ws) && GoodLiteral(other) && NoSlash(other) && GoodLiteral(lit) && other[0] != lit[0]
    ensures RemoveAll(("//" + ws + other) + rest, lit) == ("//" + ws + other) + RemoveAll(rest, lit)
  {
    var m := "//" + ws + other;
    var u := ws + other;
    SpacesHaveNoSlash(ws);
    NoSlashConcat(ws, other);
    assert m == "//" + u;
    forall q | 0 <= q < |m| ensures MatchLength((m + rest)[q..], lit).None? {
      if q == 0 {
        assert (m + rest)[q..] == m + rest;
        OtherMarkerNoMatch(ws, other, lit, rest);
      } else if q == 1 {
        assert (m + rest)[q..][1] == u[0];
      } else {
        assert (m + rest)[q..][0] == u[q - 2];
      }
    }
    KeptPrefix(m, rest, lit);
  }

  lemma MarkersAreGood()
    ensures GoodLiteral(OpenMarker) && NoSlash(OpenMarker)
    ensures GoodLiteral(CloseMarker) && NoSlash(CloseMarker)
    ensures OpenMarker[0] != CloseMarker[0]
  {
  }

  lemma FirstPassHead(lit: string, other: string, a: string, w1: string, b: string, w2: string, c: string)
    requires GoodLiteral(lit) && AllSpaces(w1)
    requires NoMatchFrom(a, ("//" + w1 + lit) + (b + ("//" + w2 + other) + c), lit)
    ensures RemoveAll(a + ("//" + w1 + lit) + (b + ("//" + w2 + other) + c), lit)
         == a + RemoveAll(b + ("//" + w2 + other) + c, lit)
  {
    RemoveMarkerAfterUnmatched(a, w1, lit, b + ("//" + w2 + other) + c);
  }

  lemma FirstPassTail(lit: string, other: string, b: string, w2: string, c: string)
    requires GoodLiteral(lit) && GoodLiteral(other) && NoSlash(other) && other[0] != lit[0] && AllSpaces(w2)
    requires NoMatchFrom(b, ("//" + w2 + other) + c, lit) && NoMatchFrom(c, "", lit)
    ensures RemoveAll(b + ("//" + w2 + other) + c, lit) == b + (("//" + w2 + other) + c)
  {
    var m2 := "//" + w2 + other;
    assert b + m2 + c == b + (m2 + c);
    KeptPrefix(b, m2 + c, lit);
    SkipOtherMarker(w2, other, lit, c);
    KeptPrefix(c, "", lit);
    assert c + "" == c;
  }

  lemma SecondPass(lit: string, ab: string, w2: string, c: string)
    requires GoodLiteral(lit) && AllSpaces(w2)
    requires NoMatchFrom(ab, ("//" + w2 + lit) + c, lit) && NoMatchFrom(c, "", lit)
    ensures RemoveAll(ab + ("//" + w2 + lit) + c, lit) == ab + c
  {
    RemoveMarkerAfterUnmatched(ab, w2, lit, c);
    KeptPrefix(c, "", lit);
    assert c + "" == c;
  }

  /** A script body as the browser serialises it loses exactly its two
      markers: `a //<![CDATA[ b //]]> c` becomes `a b c`, whenever no other
      occurrence of either pattern starts in `a`, `b` or `c`. */
  lemma StripScriptMarkers(a: string, w1: string, b: string, w2: string, c: string)
    requires AllSpaces(w1) && AllSpaces(w2)
    requires NoMatchFrom(a, ("//" + w1 + OpenMarker) + (b + ("//" + w2 + CloseMarker) + c), OpenMarker)
    requires NoMatchFrom(b, ("//" + w2 + CloseMarker) + c, OpenMarker)
    requires NoMatchFrom(a + b, ("//" + w2 + CloseMarker) + c, CloseMarker)
    requires NoMatchFrom(c, "", OpenMarker) && NoMatchFrom(c, "", CloseMarker)
    ensures StripCdata(a + ("//" + w1 + OpenMarker) + b + ("//" + w2 + CloseMarker) + c) == a + b + c
  {
    var m1 := "//" + w1 + OpenMarker;
    var m2 := "//" + w2 + CloseMarker;
    assert a + m1 + b + m2 + c == a + m1 + (b + m2 + c);
    MarkersAreGood();
    FirstPassHead(OpenMarker, CloseMarker, a, w1, b, w2, c);
    FirstPassTail(OpenMarker, CloseMarker, b, w2, c);
    assert a + (b + (m2 + c)) == (a + b) + m2 + c;
    SecondPass(CloseMarker, a + b, w2, c);
  }

  /** The usual case: slash-free text before and inside the script, and any
      text without `//` after it, such as the closing `</script>` tag and
      the rest of the page. */
  lemma StripScriptBeforeClosingTag(a: string, w1: string, b: string, w2: string, c: string)
    requires NoSlash(a) && NoSlash(b) && AllSpaces(w1) && AllSpaces(w2)
    requires forall k :: 0 <= k < |c| - 1 ==> !(c[k] == '/' && c[k + 1] == '/')
    ensures StripCdata(a + ("//" + w1 + OpenMarker) + b + ("//" + w2 + CloseMarker) + c) == a + b + c
  {
    SlashFreeHasNoMatch(a, ("//" + w1 + OpenMarker) + (b + ("//" + w2 + CloseMarker) + c), OpenMarker);
    SlashFreeHasNoMatch(b, ("//" + w2 + CloseMarker) + c, OpenMarker);
    NoSlashConcat(a, b);
    SlashFreeHasNoMatch(a + b, ("//" + w2 + CloseMarker) + c, CloseMarker);
    NoDoubleSlashHasNoMatch(c, OpenMarker);
    NoDoubleSlashHasNoMatch(c, CloseMarker);
    StripScriptMarkers(a, w1, b, w2, c);
  }

  /** A whole inline script element as the browser writes it. */
  lemma ScriptElementIsCleaned()
    ensures StripCdata("<script>//<![CDATA[\nvar x = 1;\n//]]>\n</script>") == "<script>\nvar x = 1;\n\n</script>"
  {
    var a, b, c := "<script>", "\nvar x = 1;\n", "\n</script>";
    var m1, m2 := "//" + "" + OpenMarker, "//" + "" + CloseMarker;
    assert m1 == "//<![CDATA[" && m2 == "//]]>";
    assert a + m1 == "<script>//<![CDATA[";
    assert a + m1 + b == "<script>//<![CDATA[\nvar x = 1;\n";
    assert a + m1 + b + m2 == "<script>//<![CDATA[\nvar x = 1;\n//]]>";
    assert a + m1 + b + m2 + c == "<script>//<![CDATA[\nvar x = 1;\n//]]>\n</script>";
    assert a + b + c == "<script>\nvar x = 1;\n\n</script>";
    StripScriptBeforeClosingTag(a, "", b, "", c);
  }
}
