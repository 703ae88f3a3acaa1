/**
 * Character classes and small string operations shared by the two regular
 * expressions of the bot and by `str.strip()`.
 *
 * Python's `\d` and `\s` (and `str.strip()`) use Unicode categories; this model
 * approximates them with their ASCII members: the digits `0`-`9` and the six
 * whitespace characters space, tab, line feed, vertical tab, form feed and
 * carriage return.
 */
module Text {

  predicate IsDigit(c: char) { '0' <= c <= '9' }

  predicate IsSpace(c: char) {
    c == ' ' || c == '\t' || c == '\n' || c == '\r' || c == '\U{000B}' || c == '\U{000C}'
  }

  predicate HasDigit(s: string) { exists k :: 0 <= k < |s| && IsDigit(s[k]) }

  /**
   * End of the longest run of characters satisfying `p` that starts at `k`:
   * the greedy `[...]*` of a regular expression.
   */
  function RunEnd(s: string, k: nat, p: char -> bool): (e: nat)
    requires k <= |s|
    ensures k <= e <= |s|
    ensures forall m :: k <= m < e ==> p(s[m])
    ensures e == |s| || !p(s[e])
    decreases |s| - k
  {
    if k == |s| || !p(s[k]) then k else RunEnd(s, k + 1, p)
  }

  /** A run of `p` from `k` that stops at `e` is the longest one. */
  lemma {:induction false} RunEndExact(s: string, k: nat, e: nat, p: char -> bool)
    requires k <= e <= |s|
    requires forall m :: k <= m < e ==> p(s[m])
    requires e == |s| || !p(s[e])
    ensures RunEnd(s, k, p) == e
    decreases e - k
  {
    if k < e {
      RunEndExact(s, k + 1, e, p);
    }
  }

  /** A run of `p` from `k` reaches at least as far as any stretch of `p` characters starting at `k`. */
  lemma {:induction false} RunEndCovers(s: string, k: nat, j: nat, p: char -> bool)
    requires k <= j <= |s|
    requires forall m :: k <= m < j ==> p(s[m])
    ensures j <= RunEnd(s, k, p)
    decreases j - k
  {
    if k < j {
      RunEndCovers(s, k + 1, j, p);
    }
  }

  /** `str.strip()`: drop leading and trailing whitespace. */
  function Strip(s: string): (r: string)
    ensures exists i, j :: 0 <= i <= j <= |s| && r == s[i..j]
              && (forall k :: 0 <= k < i ==> IsSpace(s[k]))
              && (forall k :: j <= k < |s| ==> IsSpace(s[k]))
    ensures r == [] || (!IsSpace(r[0]) && !IsSpace(r[|r| - 1]))
  {
    var j := StripEnd(s);
    var i := RunEnd(s[..j], 0, IsSpace);
    assert forall k :: 0 <= k < i ==> IsSpace(s[k]) by {
      forall k | 0 <= k < i ensures IsSpace(s[k]) { assert s[k] == s[..j][k]; }
    }
    s[i..j]
  }

  /** Length of `s` once its trailing whitespace is removed. */
  function StripEnd(s: string): (j: nat)
    ensures j <= |s|
    ensures forall k :: j <= k < |s| ==> IsSpace(s[k])
    ensures j == 0 || !IsSpace(s[j - 1])
  {
    if |s| == 0 || !IsSpace(s[|s| - 1]) then |s| else StripEnd(s[..|s| - 1])
  }

  /** Where line `k` starts in `"\n".join(lines)`: after every earlier line and its newline. */
  function LineStart(lines: seq<string>, k: nat): nat
    requires k <= |lines|
  {
    if k == 0 then 0 else LineStart(lines, k - 1) + |lines[k - 1]| + 1
  }

  /** The start of line `k` depends only on the lines before it. */
  lemma {:induction false} LineStartPrefix(lines: seq<string>, m: nat, k: nat)
    requires k <= m <= |lines|
    ensures LineStart(lines[..m], k) == LineStart(lines, k)
    decreases k
  {
    if k > 0 {
      LineStartPrefix(lines, m, k - 1);
      assert lines[..m][k - 1] == lines[k - 1];
    }
  }

  /** `"\n".join(lines)`. */
  function JoinLines(lines: seq<string>): (s: string)
    ensures |lines| == 0 ==> s == ""
    ensures |lines| == 1 ==> s == lines[0]
  {
    if |lines| == 0 then ""
    else if |lines| == 1 then lines[0]
    else JoinLines(lines[..|lines| - 1]) + "\n" + lines[|lines| - 1]
  }

  /** The length of `"\n".join(lines)`: up to the start of the last line, plus that line. */
  lemma {:induction false} JoinLinesLength(lines: seq<string>)
    requires |lines| > 0
    ensures |JoinLines(lines)| == LineStart(lines, |lines| - 1) + |lines[|lines| - 1]|
    decreases |lines|
  {
    var n := |lines|;
    if n > 1 {
      var init := lines[..n - 1];
      JoinLinesLength(init);
      LineStartPrefix(lines, n - 1, n - 2);
      assert init[n - 2] == lines[n - 2];
    }
  }

  /**
   * Line `k` of `"\n".join(lines)` sits at `LineStart(lines, k)`, and every
   * line but the last is followed by a newline.
   */
  lemma {:induction false} JoinLinesAt(lines: seq<string>, k: nat)
    requires k < |lines|
    ensures var s := JoinLines(lines);
      var start := LineStart(lines, k);
      && start + |lines[k]| <= |s|
      && s[start..start + |lines[k]|] == lines[k]
      && (k < |lines| - 1 ==> start + |lines[k]| < |s| && s[start + |lines[k]|] == '\n')
    decreases |lines|
  {
    var n := |lines|;
    if n > 1 {
      var init := lines[..n - 1];
      var head := JoinLines(init);
      var s := JoinLines(lines);
      assert s == head + "\n" + lines[n - 1];
      JoinLinesLength(init);
      LineStartPrefix(lines, n - 1, n - 2);
      assert init[n - 2] == lines[n - 2];
      if k < n - 1 {
        JoinLinesAt(init, k);
        LineStartPrefix(lines, n - 1, k);
        assert init[k] == lines[k];
        var start := LineStart(lines, k);
        assert s[start..start + |lines[k]|] == head[start..start + |lines[k]|];
        if k < n - 2 {
          assert s[start + |lines[k]|] == head[start + |lines[k]|];
        }
      } else {
        assert s[LineStart(lines, k)..LineStart(lines, k) + |lines[k]|] == lines[n - 1];
      }
    }
  }
}
