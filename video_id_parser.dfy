/**
  extractVideoId: the four accepted URL shapes, tried in order.

  Each of the source's patterns is an unanchored regular expression
  `(https?://)?(www.)?LITERAL([a-zA-Z0-9_-]{11})`. Because both prefix groups are
  optional and contain no `y`, while every literal starts with `y`, the captured
  group is always the 11 characters after the leftmost occurrence of LITERAL that
  is followed by 11 token characters. That is what is modelled here, as a plain
  scan; the prefixes never change the result.
 */
module VideoIdParser {
  import opened Wrappers

  const TokenLength: nat := 11

  const WatchPattern: string := "youtube.com/watch?v="
  const ShortPattern: string := "youtu.be/"
  const EmbedPattern: string := "youtube.com/embed/"
  const LegacyPattern: string := "youtube.com/v/"

  /** The literals of the four patterns, in the order they are tried. */
  const Patterns: seq<string> := [WatchPattern, ShortPattern, EmbedPattern, LegacyPattern]

  /** The character class `[a-zA-Z0-9_-]`. */
  predicate IsTokenChar(c: char)
  {
    ('a' <= c <= 'z') || ('A' <= c <= 'Z') || ('0' <= c <= '9') || c == '_' || c == '-'
  }

  /** A well-formed video identifier: exactly 11 token characters. */
  predicate IsVideoId(s: string)
  {
    |s| == TokenLength && forall i :: 0 <= i < |s| ==> IsTokenChar(s[i])
  }

  /** `literal` occurs at `i` in `url` and is followed by 11 token characters. */
  predicate MatchesAt(url: string, literal: string, i: int)
  {
    && 0 <= i
    && i + |literal| + TokenLength <= |url|
    && url[i..i + |literal|] == literal
    && IsVideoId(url[i + |literal|..i + |literal| + TokenLength])
  }

  /** The token captured by a match of `literal` at `i`. */
  function TokenAt(url: string, literal: string, i: int): string
    requires MatchesAt(url, literal, i)
  {
    url[i + |literal|..i + |literal| + TokenLength]
  }

  /** The leftmost position at or after `from` where `literal` matches. */
  function FindMatch(url: string, literal: string, from: nat): (r: Option<nat>)
    decreases |url| - from
    ensures r.Some? ==> from <= r.value && MatchesAt(url, literal, r.value)
    ensures r.Some? ==> forall j :: from <= j < r.value ==> !MatchesAt(url, literal, j)
    ensures r.None? ==> forall j :: from <= j ==> !MatchesAt(url, literal, j)
  {
    if from + |literal| + TokenLength > |url| then None
    else if MatchesAt(url, literal, from) then Some(from)
    else FindMatch(url, literal, from + 1)
  }

  /** `url.match(pattern)?.[1]` for the pattern whose literal is `literal`. */
  function MatchPattern(url: string, literal: string): (r: Option<string>)
    ensures r.Some? ==> IsVideoId(r.value)
    ensures r.None? <==> forall i :: !MatchesAt(url, literal, i)
    ensures r.Some? ==> exists i :: && MatchesAt(url, literal, i) && r.value == TokenAt(url, literal, i)
                                    && forall j :: 0 <= j < i ==> !MatchesAt(url, literal, j)
  {
    match FindMatch(url, literal, 0)
    case Some(i) => Some(TokenAt(url, literal, i))
    case None => None
  }

  /** The loop over `patterns`: the capture of the first pattern that matches. */
  function FirstMatch(url: string, patterns: seq<string>): (r: Option<string>)
    ensures r.Some? ==> IsVideoId(r.value)
    ensures r.None? <==> forall k :: 0 <= k < |patterns| ==> MatchPattern(url, patterns[k]).None?
    ensures r.Some? ==> exists k :: && 0 <= k < |patterns| && r == MatchPattern(url, patterns[k])
                                    && forall j :: 0 <= j < k ==> MatchPattern(url, patterns[j]).None?
  {
    if patterns == [] then None
    else match MatchPattern(url, patterns[0])
      case Some(id) => Some(id)
      case None =>
        var r := FirstMatch(url, patterns[1..]);
        FirstMatchShift(url, patterns, r);
        r
  }

  /** A search that failed on the first pattern answers as the search over the rest. */
  lemma FirstMatchShift(url: string, patterns: seq<string>, r: Option<string>)
    requires patterns != [] && MatchPattern(url, patterns[0]).None?
    requires r.None? <==> forall k :: 0 <= k < |patterns[1..]| ==> MatchPattern(url, patterns[1..][k]).None?
    requires r.Some? ==> exists k :: && 0 <= k < |patterns[1..]| && r == MatchPattern(url, patterns[1..][k])
                                      && forall j :: 0 <= j < k ==> MatchPattern(url, patterns[1..][j]).None?
    ensures r.None? <==> forall k :: 0 <= k < |patterns| ==> MatchPattern(url, patterns[k]).None?
    ensures r.Some? ==> exists k :: && 0 <= k < |patterns| && r == MatchPattern(url, patterns[k])
                                    && forall j :: 0 <= j < k ==> MatchPattern(url, patterns[j]).None?
  {
    var tail := patterns[1..];
    assert forall k :: 0 <= k < |tail| ==> tail[k] == patterns[k + 1];
    if r.Some? {
      var k :| && 0 <= k < |tail| && r == MatchPattern(url, tail[k])
               && forall j :: 0 <= j < k ==> MatchPattern(url, tail[j]).None?;
      assert forall j :: 0 <= j < k + 1 ==> MatchPattern(url, patterns[j]).None? by {
        forall j | 0 <= j < k + 1 ensures MatchPattern(url, patterns[j]).None? {
          if j > 0 { assert patterns[j] == tail[j - 1]; }
        }
      }
      assert r == MatchPattern(url, patterns[k + 1]);
    } else {
      forall k | 0 <= k < |patterns| ensures MatchPattern(url, patterns[k]).None? {
        if k > 0 { assert patterns[k] == tail[k - 1]; }
      }
    }
  }

  /**
    extractVideoId: the token of the first of the four patterns that matches,
    or None (the source's `null`) when none does; it never throws.
   */
  function ExtractVideoId(url: string): (r: Option<string>)
    ensures r.Some? ==> IsVideoId(r.value)
    ensures r.Some? ==> exists k :: && 0 <= k < |Patterns| && r == MatchPattern(url, Patterns[k])
                                    && forall j :: 0 <= j < k ==> MatchPattern(url, Patterns[j]).None?
    ensures r.None? <==> forall k, i :: 0 <= k < |Patterns| ==> !MatchesAt(url, Patterns[k], i)
  {
    FirstMatch(url, Patterns)
  }

  /** The optional `(https?://)?(www.)?` part in front of a pattern's literal. */
  predicate IsUrlPrefix(head: string)
  {
    head in {"", "www.", "http://", "http://www.", "https://", "https://www."}
  }

  /** The link VideoCard builds for a video. */
  function WatchUrl(videoId: string): string
  {
    "https://www." + WatchPattern + videoId
  }

  /** No match of `literal` starts at a position whose character differs from the literal's first. */
  lemma NoMatchAtOtherChar(url: string, literal: string, i: int)
    requires literal != [] && 0 <= i < |url| && url[i] != literal[0]
    ensures !MatchesAt(url, literal, i)
  {
  }

  /** A literal starting with `y`, after a prefix without `y`, is where the leftmost match is. */
  lemma LiteralAfterPrefix(head: string, literal: string, id: string, rest: string)
    requires 'y' !in head && literal != [] && literal[0] == 'y' && IsVideoId(id)
    ensures MatchPattern(head + literal + id + rest, literal) == Some(id)
  {
    var url := head + literal + id + rest;
    forall i | 0 <= i < |head|
      ensures !MatchesAt(url, literal, i)
    {
      assert url[i] == head[i];
      NoMatchAtOtherChar(url, literal, i);
    }
    var p := |head|;
    assert url == head + (literal + (id + rest));
    assert url[p..] == literal + (id + rest);
    assert url[p..p + |literal|] == literal;
    assert url[p + |literal|..p + |literal| + TokenLength] == id;
    assert MatchesAt(url, literal, p);
    var m := MatchPattern(url, literal);
    var i :| && MatchesAt(url, literal, i) && m.value == TokenAt(url, literal, i)
             && forall j :: 0 <= j < i ==> !MatchesAt(url, literal, j);
    assert i == p;
  }

  /**
    For each shape, a literal preceded by any of the optional prefixes and followed
    by a well-formed token yields exactly that token, whatever follows it, provided
    no earlier pattern in the list matches the whole string.
   */
  lemma ShapeYieldsToken(head: string, k: nat, id: string, rest: string)
    requires IsUrlPrefix(head) && k < |Patterns| && IsVideoId(id)
    requires forall j :: 0 <= j < k ==> MatchPattern(head + Patterns[k] + id + rest, Patterns[j]).None?
    ensures ExtractVideoId(head + Patterns[k] + id + rest) == Some(id)
  {
    var url := head + Patterns[k] + id + rest;
    assert Patterns[k][0] == 'y';
    assert 'y' !in head;
    LiteralAfterPrefix(head, Patterns[k], id, rest);
    var r := ExtractVideoId(url);
    var k' :| && 0 <= k' < |Patterns| && r == MatchPattern(url, Patterns[k'])
              && forall j :: 0 <= j < k' ==> MatchPattern(url, Patterns[j]).None?;
    assert k' == k;
  }

  /** The link VideoCard builds parses back to the identifier it was built from. */
  lemma WatchUrlRoundTrip(id: string)
    requires IsVideoId(id)
    ensures ExtractVideoId(WatchUrl(id)) == Some(id)
  {
    assert WatchUrl(id) == "https://www." + Patterns[0] + id + "";
    ShapeYieldsToken("https://www.", 0, id, "");
  }

  /** Matching is unanchored: of a 12-character token only the first 11 are taken. */
  lemma LongTokenTruncated(token: string)
    requires |token| == TokenLength + 1 && forall i :: 0 <= i < |token| ==> IsTokenChar(token[i])
    ensures ExtractVideoId("https://youtu.be/" + token) == Some(token[..TokenLength])
  {
    var url := "https://youtu.be/" + token;
    assert url == "https://" + Patterns[1] + token[..TokenLength] + token[TokenLength..];
    forall i ensures !MatchesAt(url, Patterns[0], i) {
    }
    ShapeYieldsToken("https://", 1, token[..TokenLength], token[TokenLength..]);
  }

  /** `v=` must follow `watch?` directly: another parameter first defeats the watch pattern. */
  lemma WatchNeedsLeadingV(id: string)
    requires IsVideoId(id)
    ensures MatchPattern("youtube.com/watch?x=1&v=" + id, WatchPattern).None?
  {
    var url := "youtube.com/watch?x=1&v=" + id;
    forall i ensures !MatchesAt(url, WatchPattern, i) {
      if 0 < i <= 4 {
        assert url[i] == "outu"[i - 1];
        NoMatchAtOtherChar(url, WatchPattern, i);
      } else if i == 0 {
        assert url[0..20][18] != WatchPattern[18];
      }
    }
  }

  /** Matching is case-sensitive: a capitalised host is not recognised by any pattern. */
  lemma HostIsCaseSensitive(id: string)
    requires IsVideoId(id)
    ensures ExtractVideoId("https://www.YouTube.com/watch?v=" + id).None?
  {
    var head := "https://www.YouTube.com/watch?v=";
    var url := head + id;
    assert 'y' !in head;
    forall k, i | 0 <= k < |Patterns|
      ensures !MatchesAt(url, Patterns[k], i)
    {
      assert Patterns[k][0] == 'y' && |Patterns[k]| >= 9;
      if 0 <= i < |head| {
        assert url[i] == head[i];
        NoMatchAtOtherChar(url, Patterns[k], i);
      }
    }
  }

  /** The watch pattern is tried first: when it matches, its token wins over any other form. */
  lemma WatchFormTakesPrecedence(url: string, i: int)
    requires MatchesAt(url, WatchPattern, i)
    ensures ExtractVideoId(url) == MatchPattern(url, WatchPattern) && ExtractVideoId(url).Some?
  {
  }
}
