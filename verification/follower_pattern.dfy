/**
 * The follower-count pattern of the page fallback:
 * `re.search(r"([\d,\.]+)\s+followers", desc_text)` and its group 1.
 *
 * `IsCountMatchAt` says declaratively where a match starts and where its group
 * ends; `CountMatchAt` and `SearchCount` are the greedy, leftmost search.
 */
module FollowerPattern {
  import opened Wrappers
  import opened Text

  /** `[\d,\.]`. */
  predicate CountChar(c: char) { IsDigit(c) || c == ',' || c == '.' }

  const Keyword: string := "followers"

  /**
   * A match of the pattern starts at `i` and its group is `desc[i..e]`: a
   * non-empty run of `[\d,\.]`, then at least one whitespace character, then
   * the word `followers`.
   */
  ghost predicate IsCountMatchAt(desc: string, i: nat, e: nat) {
    && i < e <= |desc|
    && (forall m :: i <= m < e ==> CountChar(desc[m]))
    && exists f :: e < f <= |desc| && (forall m :: e <= m < f ==> IsSpace(desc[m])) && Keyword <= desc[f..]
  }

  /** The greedy match at `i`: the end of its group, or `None`. */
  function CountMatchAt(desc: string, i: nat): Option<nat>
    requires i <= |desc|
  {
    var e := RunEnd(desc, i, CountChar);
    if e == i then None
    else
      var f := RunEnd(desc, e, IsSpace);
      if f > e && Keyword <= desc[f..] then Some(e) else None
  }

  lemma CountMatchAtSound(desc: string, i: nat)
    requires i <= |desc| && CountMatchAt(desc, i).Some?
    ensures IsCountMatchAt(desc, i, CountMatchAt(desc, i).value)
  {
    var e := CountMatchAt(desc, i).value;
    var f := RunEnd(desc, e, IsSpace);
    assert e < f <= |desc| && (forall m :: e <= m < f ==> IsSpace(desc[m])) && Keyword <= desc[f..];
  }

  /**
   * Backtracking cannot help: a shorter group would be followed by a `[\d,\.]`
   * character rather than whitespace, and fewer spaces by a space rather than
   * `f`. So every match at `i` is the greedy one.
   */
  lemma CountMatchAtComplete(desc: string, i: nat, e: nat)
    requires IsCountMatchAt(desc, i, e)
    ensures CountMatchAt(desc, i) == Some(e)
  {
    var f :| e < f <= |desc| && (forall m :: e <= m < f ==> IsSpace(desc[m])) && Keyword <= desc[f..];
    assert desc[f] == Keyword[0];
    RunEndExact(desc, i, e, CountChar);
    RunEndExact(desc, e, f, IsSpace);
  }

  /** The leftmost match at or after `i`: where it starts and where its group ends. */
  function SearchCount(desc: string, i: nat): (r: Option<(nat, nat)>)
    requires i <= |desc|
    ensures r.None? ==> forall k: nat, e: nat :: i <= k ==> !IsCountMatchAt(desc, k, e)
    ensures r.Some? ==> i <= r.value.0 && IsCountMatchAt(desc, r.value.0, r.value.1)
                        && forall k: nat, e: nat :: i <= k < r.value.0 ==> !IsCountMatchAt(desc, k, e)
    decreases |desc| - i
  {
    match CountMatchAt(desc, i)
    case Some(e) =>
      CountMatchAtSound(desc, i);
      Some((i, e))
    case None =>
      assert forall e: nat :: !IsCountMatchAt(desc, i, e) by {
        forall e | IsCountMatchAt(desc, i, e) ensures false { CountMatchAtComplete(desc, i, e); }
      }
      if i == |desc| then None else SearchCount(desc, i + 1)
  }

  /** The match starting at `i`, with group `desc[i..e]`, is the leftmost one. */
  ghost predicate IsFirstCountMatch(desc: string, i: nat, e: nat) {
    IsCountMatchAt(desc, i, e) && forall k: nat, e': nat :: k < i ==> !IsCountMatchAt(desc, k, e')
  }

  /**
   * `m.group(1)` of the search, or `None` when the description holds no
   * count followed by whitespace and `followers`.
   */
  function FollowersText(desc: string): (r: Option<string>)
    ensures r.None? <==> forall i: nat, e: nat :: !IsCountMatchAt(desc, i, e)
    ensures r.Some? ==> exists i: nat, e: nat :: IsFirstCountMatch(desc, i, e) && r.value == desc[i..e]
  {
    match SearchCount(desc, 0)
    case None => None
    case Some((i, e)) =>
      assert IsFirstCountMatch(desc, i, e);
      Some(desc[i..e])
  }
}
