/**
  The User-Agent patterns of the bot gate.  Every built-in pattern has the
  shape `(?i).*(a1|...|an).*` matched with `String.matches`, i.e. against
  the whole value: it holds exactly when the value has no line terminator
  (`.` does not match one) and some alternative occurs in it, where a `.`
  inside an alternative is itself the any-character wildcard and letters
  compare ignoring ASCII case (`(?i)` without UNICODE_CASE).  Configured
  patterns are arbitrary regular expressions, decided by a matcher that is
  a parameter of the model.
*/
module Agents {
  import opened Wrappers
  import opened Http

  datatype AgentPattern =
    | Wildcard(alternatives: seq<string>)   // (?i).*(a1|...|an).*
    | Configured(regex: string)              // matched by the regex engine

  /** Line terminators in the sense of `java.util.regex` without UNIX_LINES. */
  predicate IsLineTerminator(c: char)
  {
    c == '\n' || c == '\r' || c == '\U{0085}' || c == '\U{2028}' || c == '\U{2029}'
  }

  predicate SingleLine(s: string)
  {
    forall i :: 0 <= i < |s| ==> !IsLineTerminator(s[i])
  }

  predicate CharMatches(p: char, c: char)
  {
    if p == '.' then !IsLineTerminator(c) else LowerAscii(p) == LowerAscii(c)
  }

  /** The alternative matches the characters of `s` starting at `i`. */
  predicate OccursAt(alt: string, s: string, i: int)
  {
    0 <= i && i + |alt| <= |s| && forall k :: 0 <= k < |alt| ==> CharMatches(alt[k], s[i + k])
  }

  predicate PrefixMatches(alt: string, s: string)
  {
    |alt| <= |s| && forall k :: 0 <= k < |alt| ==> CharMatches(alt[k], s[k])
  }

  /** Left-to-right search for the alternative, as `.*alt.*` scans. */
  predicate Contains(s: string, alt: string)
    decreases |s|
  {
    |alt| <= |s| && (PrefixMatches(alt, s) || Contains(s[1..], alt))
  }

  lemma {:induction false} ContainsIff(s: string, alt: string)
    ensures Contains(s, alt) <==> exists i :: OccursAt(alt, s, i)
    decreases |s|
  {
    if |s| == 0 {
      assert |alt| == 0 ==> OccursAt(alt, s, 0);
    } else if |alt| <= |s| {
      assert PrefixMatches(alt, s) <==> OccursAt(alt, s, 0);
      ContainsIff(s[1..], alt);
      if Contains(s[1..], alt) {
        var i :| OccursAt(alt, s[1..], i);
        assert OccursAt(alt, s, i + 1);
      }
      if i :| OccursAt(alt, s, i) {
        if i > 0 {
          assert OccursAt(alt, s[1..], i - 1);
        }
      }
    } else {
      assert forall i :: !OccursAt(alt, s, i);
    }
  }

  predicate AnyAlternative(alts: seq<string>, s: string)
  {
    exists a :: a in alts && Contains(s, a)
  }

  /** Whole-value match of `(?i).*(a1|...|an).*`. */
  predicate WildcardMatches(alts: seq<string>, s: string)
  {
    SingleLine(s) && AnyAlternative(alts, s)
  }

  predicate PatternMatches(regex: (string, string) -> bool, p: AgentPattern, userAgent: string)
  {
    match p
    case Wildcard(alts) => WildcardMatches(alts, userAgent)
    case Configured(r) => regex(userAgent, r)
  }

  /** The built-in crawler signatures, in declaration order. */
  const DefaultAgents: seq<AgentPattern> := [
    Wildcard(["Googlebot"]),
    Wildcard(["AdsBot"]),
    Wildcard(["Mediapartners-Google"]),
    Wildcard(["developers.google.com"]),
    Wildcard(["Bingbot"]),
    Wildcard(["LinkedInBot"]),
    Wildcard(["TwitterBot"]),
    Wildcard(["Pinterestbot"]),
    Wildcard(["Slurp"]),
    Wildcard(["DuckDuckBot"]),
    Wildcard(["Baiduspider"]),
    Wildcard(["YandexBot"]),
    Wildcard(["Sogou"]),
    Wildcard(["Exabot"]),
    Wildcard(["facebook.com"]),
    Wildcard(["crawler@alexa.com"]),
    Wildcard(["bot", "googlebot", "crawler", "spider", "robot", "crawling"])
  ]

  /** Index of the first pattern that matches: the scan stops there. */
  function FirstMatch(regex: (string, string) -> bool, agents: seq<AgentPattern>, userAgent: string): (r: Option<nat>)
    ensures r.None? <==> forall k :: 0 <= k < |agents| ==> !PatternMatches(regex, agents[k], userAgent)
    ensures r.Some? ==> r.value < |agents| && PatternMatches(regex, agents[r.value], userAgent)
    ensures r.Some? ==> forall k :: 0 <= k < r.value ==> !PatternMatches(regex, agents[k], userAgent)
    decreases |agents|
  {
    if |agents| == 0 then None
    else if PatternMatches(regex, agents[0], userAgent) then Some(0)
    else
      var r := FirstMatch(regex, agents[1..], userAgent);
      if r.None? then None else Some(r.value + 1)
  }

  /** Patterns added after a matching one are never consulted: configured
      additions cannot override what a default pattern decides. */
  lemma {:induction false} FirstMatchAppend(regex: (string, string) -> bool, agents: seq<AgentPattern>, extra: seq<AgentPattern>, userAgent: string)
    requires FirstMatch(regex, agents, userAgent).Some?
    ensures FirstMatch(regex, agents + extra, userAgent) == FirstMatch(regex, agents, userAgent)
    decreases |agents|
  {
    assert (agents + extra)[0] == agents[0];
    if !PatternMatches(regex, agents[0], userAgent) {
      assert (agents + extra)[1..] == agents[1..] + extra;
      FirstMatchAppend(regex, agents[1..], extra, userAgent);
    }
  }

  /** When no earlier pattern matches, the additions decide, in their own order. */
  lemma {:induction false} FirstMatchAfter(regex: (string, string) -> bool, agents: seq<AgentPattern>, extra: seq<AgentPattern>, userAgent: string)
    requires FirstMatch(regex, agents, userAgent).None?
    ensures FirstMatch(regex, agents + extra, userAgent) ==
      (var r := FirstMatch(regex, extra, userAgent); if r.None? then None else Some(|agents| + r.value))
    decreases |agents|
  {
    if |agents| == 0 {
      assert agents + extra == extra;
    } else {
      assert (agents + extra)[0] == agents[0];
      assert (agents + extra)[1..] == agents[1..] + extra;
      FirstMatchAfter(regex, agents[1..], extra, userAgent);
    }
  }

  /** A value with a line break never matches a built-in signature. */
  lemma MultiLineNeverMatchesWildcard(alts: seq<string>, userAgent: string)
    requires !SingleLine(userAgent)
    ensures !WildcardMatches(alts, userAgent)
  {
  }

  /** Every single-line value containing "bot" in any ASCII case is caught by the catch-all. */
  lemma BotIsCaught(userAgent: string, i: nat)
    requires SingleLine(userAgent)
    requires OccursAt("bot", userAgent, i)
    ensures WildcardMatches(DefaultAgents[|DefaultAgents| - 1].alternatives, userAgent)
  {
    ContainsIff(userAgent, "bot");
    assert "bot" in DefaultAgents[|DefaultAgents| - 1].alternatives;
  }

  const GooglebotAgent := "Mozilla/5.0 (compatible; Googlebot/2.1)"

  /** A literal copy of the alternative is an occurrence of it. */
  lemma OccursAtCopy(alt: string, s: string, i: nat)
    requires i + |alt| <= |s| && s[i..i + |alt|] == alt
    ensures OccursAt(alt, s, i)
  {
    forall k | 0 <= k < |alt| ensures CharMatches(alt[k], s[i + k]) {
      assert s[i + k] == alt[k];
    }
  }

  lemma GooglebotContainsSignature()
    ensures AnyAlternative(["Googlebot"], GooglebotAgent)
  {
    assert GooglebotAgent[25..34] == "Googlebot";
    OccursAtCopy("Googlebot", GooglebotAgent, 25);
    ContainsIff(GooglebotAgent, "Googlebot");
    assert "Googlebot" in ["Googlebot"];
  }

  lemma GooglebotIsSingleLine()
    ensures SingleLine(GooglebotAgent)
  {
    assert forall i :: 0 <= i < |GooglebotAgent| ==> GooglebotAgent[i] as int >= 32;
  }

  /** A typical Googlebot user agent matches the first
      built-in pattern, whatever patterns are configured after it. */
  lemma GooglebotScenario(regex: (string, string) -> bool, extra: seq<AgentPattern>)
    ensures FirstMatch(regex, DefaultAgents + extra, GooglebotAgent) == Some(0)
  {
    GooglebotContainsSignature();
    GooglebotIsSingleLine();
    var all := DefaultAgents + extra;
    assert all[0] == DefaultAgents[0];
  }
}
