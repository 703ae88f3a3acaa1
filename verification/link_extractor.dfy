/**
 * The link extractor: `extract_instagram_profile_url`, a search with the
 * pattern `(https?://(?:www\.)?instagram\.com/[^/?#\s]+)` followed by
 * `rstrip("/")` on the first match.
 *
 * The pattern is one of four fixed prefixes (the expansions of
 * `https?://(?:www\.)?instagram\.com/`) followed by a non-empty segment. It is
 * described twice: declaratively (`InPattern`, the strings it matches, and
 * `IsMatchAt`, where Python's leftmost, greedy search stops) and operationally
 * (`MatchAt`, `Search`), and lemmas tie the two. The matcher is written for any
 * list of prefixes none of which starts another one; `UrlPrefixesFree` shows
 * the four URL prefixes are such a list, which is why the regular expression
 * never has two ways to match at one position.
 */
module LinkExtractor {
  import opened Wrappers
  import opened Text
  import opened UrlPrefix

  /** `[^/?#\s]`: the characters allowed in the profile segment. */
  predicate SegmentChar(c: char) { c != '/' && c != '?' && c != '#' && !IsSpace(c) }

  predicate AllSegment(s: string) { forall k :: 0 <= k < |s| ==> SegmentChar(s[k]) }

  /** The strings the pattern matches: a prefix and a non-empty segment. */
  ghost predicate InPattern(u: string, prefixes: seq<string>) {
    exists p :: p in prefixes && p <= u && |p| < |u| && AllSegment(u[|p|..])
  }

  /**
   * Python's search, started at `i`, stops at `j` when `text[i..j]` is matched
   * and the greedy `+` cannot take one more character.
   */
  ghost predicate IsMatchAt(text: string, i: nat, j: nat, prefixes: seq<string>) {
    i <= j <= |text| && InPattern(text[i..j], prefixes) && (j == |text| || !SegmentChar(text[j]))
  }

  /** No match of the pattern starts in `[from, to)`. */
  ghost predicate NoMatchBetween(text: string, from: nat, to: nat, prefixes: seq<string>) {
    forall k, j :: from <= k < to && k <= j <= |text| ==> !InPattern(text[k..j], prefixes)
  }

  /** The first of `prefixes` that `rest` starts with. */
  function PrefixOf(rest: string, prefixes: seq<string>): (r: Option<string>)
    ensures r.Some? ==> r.value in prefixes && r.value <= rest
    ensures r.None? ==> forall p :: p in prefixes ==> !(p <= rest)
  {
    if prefixes == [] then None
    else if prefixes[0] <= rest then Some(prefixes[0])
    else
      assert forall p :: p in prefixes ==> p == prefixes[0] || p in prefixes[1..];
      PrefixOf(rest, prefixes[1..])
  }

  /** With a prefix-free list, the prefix a string starts with is the one `PrefixOf` finds. */
  lemma PrefixOfFinds(rest: string, p: string, prefixes: seq<string>)
    requires PrefixFree(prefixes) && p in prefixes && p <= rest
    ensures PrefixOf(rest, prefixes) == Some(p)
  {
    var q := PrefixOf(rest, prefixes).value;
    if |p| <= |q| { assert p <= q; }
  }

  /** The greedy match starting at `i`: its end, or `None`. */
  function MatchAt(text: string, i: nat, prefixes: seq<string>): Option<nat>
    requires i <= |text|
  {
    match PrefixOf(text[i..], prefixes)
    case None => None
    case Some(p) =>
      var j := RunEnd(text, i + |p|, SegmentChar);
      if j > i + |p| then Some(j) else None
  }

  lemma MatchAtSound(text: string, i: nat, prefixes: seq<string>)
    requires i <= |text| && MatchAt(text, i, prefixes).Some?
    ensures IsMatchAt(text, i, MatchAt(text, i, prefixes).value, prefixes)
  {
    var j := MatchAt(text, i, prefixes).value;
    var p := PrefixOf(text[i..], prefixes).value;
    var u := text[i..j];
    assert p <= u;
    assert u[|p|..] == text[i + |p|..j];
  }

  /** A matched slice starts with the prefix `PrefixOf` finds, and the segment follows it. */
  lemma MatchedPrefix(text: string, i: nat, j: nat, prefixes: seq<string>)
    requires PrefixFree(prefixes)
    requires i <= j <= |text| && InPattern(text[i..j], prefixes)
    ensures PrefixOf(text[i..], prefixes).Some?
    ensures var k := i + |PrefixOf(text[i..], prefixes).value|; k < j && AllSegment(text[k..j])
  {
    var u := text[i..j];
    var p :| p in prefixes && p <= u && |p| < |u| && AllSegment(u[|p|..]);
    var rest := text[i..];
    assert p <= rest by {
      assert forall k :: 0 <= k < |p| ==> p[k] == u[k] == rest[k];
    }
    PrefixOfFinds(rest, p, prefixes);
    assert u[|p|..] == text[i + |p|..j];
  }

  lemma RunReaches(text: string, k: nat, j: nat)
    requires k <= j <= |text| && AllSegment(text[k..j])
    ensures j <= RunEnd(text, k, SegmentChar)
  {
    forall m | k <= m < j ensures SegmentChar(text[m]) {
      assert text[m] == text[k..j][m - k];
    }
    RunEndCovers(text, k, j, SegmentChar);
  }

  /** Wherever the pattern matches some slice starting at `i`, `MatchAt` succeeds and reaches at least as far. */
  lemma MatchAtComplete(text: string, i: nat, j: nat, prefixes: seq<string>)
    requires PrefixFree(prefixes)
    requires i <= j <= |text| && InPattern(text[i..j], prefixes)
    ensures MatchAt(text, i, prefixes).Some? && j <= MatchAt(text, i, prefixes).value
  {
    MatchedPrefix(text, i, j, prefixes);
    var k := i + |PrefixOf(text[i..], prefixes).value|;
    RunReaches(text, k, j);
  }

  /** A greedy match at `i` is the one `MatchAt` finds: the regex has one way to match there. */
  lemma MatchAtUnique(text: string, i: nat, j: nat, prefixes: seq<string>)
    requires PrefixFree(prefixes)
    requires IsMatchAt(text, i, j, prefixes)
    ensures MatchAt(text, i, prefixes) == Some(j)
  {
    MatchedPrefix(text, i, j, prefixes);
    MatchAtComplete(text, i, j, prefixes);
  }

  lemma NoMatchAt(text: string, i: nat, prefixes: seq<string>)
    requires PrefixFree(prefixes)
    requires i <= |text| && MatchAt(text, i, prefixes).None?
    ensures forall j :: i <= j <= |text| ==> !InPattern(text[i..j], prefixes)
  {
    forall j | i <= j <= |text| && InPattern(text[i..j], prefixes) ensures false {
      MatchAtComplete(text, i, j, prefixes);
    }
  }

  /** `re.search`: the leftmost match at or after `i`, as a pair of indices. */
  function Search(text: string, i: nat, prefixes: seq<string>): (r: Option<(nat, nat)>)
    requires PrefixFree(prefixes)
    requires i <= |text|
    ensures r.None? ==> NoMatchBetween(text, i, |text| + 1, prefixes)
    ensures r.Some? ==> i <= r.value.0 && IsMatchAt(text, r.value.0, r.value.1, prefixes)
                        && NoMatchBetween(text, i, r.value.0, prefixes)
    decreases |text| - i
  {
    match MatchAt(text, i, prefixes)
    case Some(j) =>
      MatchAtSound(text, i, prefixes);
      Some((i, j))
    case None =>
      NoMatchAt(text, i, prefixes);
      if i == |text| then None else Search(text, i + 1, prefixes)
  }

  /** `s.rstrip("/")`. */
  function RStripSlash(s: string): (r: string)
    ensures r <= s
    ensures r == [] || r[|r| - 1] != '/'
    ensures forall k :: |r| <= k < |s| ==> s[k] == '/'
  {
    if |s| > 0 && s[|s| - 1] == '/' then RStripSlash(s[..|s| - 1]) else s
  }

  /** The search and `rstrip("/")` of `extract_instagram_profile_url`, for any prefix-free list. */
  function ExtractWith(text: string, prefixes: seq<string>): (r: Option<string>)
    requires PrefixFree(prefixes)
    ensures r.None? <==> NoMatchBetween(text, 0, |text| + 1, prefixes)
    ensures r.Some? ==> exists i: nat, j: nat :: IsMatchAt(text, i, j, prefixes)
                          && NoMatchBetween(text, 0, i, prefixes) && r.value == text[i..j]
  {
    match Search(text, 0, prefixes)
    case None => None
    case Some((i, j)) =>
      var u := text[i..j];
      MatchedPrefix(text, i, j, prefixes);
      var k := i + |PrefixOf(text[i..], prefixes).value|;
      assert u[|u| - 1] == text[k..j][j - 1 - k];
      Some(RStripSlash(u))
  }

  /** The text holds no match of the profile-URL pattern. */
  ghost predicate NoProfileUrl(text: string) {
    NoMatchBetween(text, 0, |text| + 1, UrlPrefixes)
  }

  /** `text[i..j]` is the leftmost, greedy match of the profile-URL pattern. */
  ghost predicate IsFirstMatch(text: string, i: nat, j: nat) {
    IsMatchAt(text, i, j, UrlPrefixes) && NoMatchBetween(text, 0, i, UrlPrefixes)
  }

  /**
   * `extract_instagram_profile_url`: `None` exactly when the text holds no
   * match; otherwise the leftmost, greedy match, which `rstrip("/")` leaves
   * as it is.
   */
  function ExtractProfileUrl(text: string): (r: Option<string>)
    ensures r.None? <==> NoProfileUrl(text)
    ensures r.Some? ==> exists i: nat, j: nat :: IsFirstMatch(text, i, j) && r.value == text[i..j]
  {
    UrlPrefixesFree();
    ExtractWith(text, UrlPrefixes)
  }
  /**
   * The shape of a profile link: it starts with `http://` or `https://`, has
   * `instagram.com/` right before a non-empty last segment free of `/`, `?`,
   * `#` and whitespace, and so does not end in `/`.
   */
  ghost predicate ProfileLinkShape(u: string) {
    && (Https <= u || Http <= u)
    && (exists k :: |Host| <= k < |u| && u[k - |Host|..k] == Host && AllSegment(u[k..]))
    && u[|u| - 1] != '/'
  }

  lemma ShapeFromPrefix(u: string, p: string)
    requires Https <= p || Http <= p
    requires |p| >= |Host| && p[|p| - |Host|..] == Host
    requires p <= u && |p| < |u| && AllSegment(u[|p|..])
    ensures ProfileLinkShape(u)
  {
    var k := |p|;
    assert u[k - |Host|..k] == p[|p| - |Host|..];
    assert SegmentChar(u[|u| - 1]) by { assert u[|u| - 1] == u[k..][|u| - 1 - k]; }
  }

  /** Every link the extractor returns has the shape of a profile link. */
  lemma ExtractedUrlShape(text: string)
    ensures ExtractProfileUrl(text).Some? ==> ProfileLinkShape(ExtractProfileUrl(text).value)
  {
    if ExtractProfileUrl(text).None? {
      return;
    }
    var u := ExtractProfileUrl(text).value;
    var i: nat, j: nat :| IsFirstMatch(text, i, j) && u == text[i..j];
    var p :| p in UrlPrefixes && p <= u && |p| < |u| && AllSegment(u[|p|..]);
    PrefixShape(p);
    ShapeFromPrefix(u, p);
  }
}
