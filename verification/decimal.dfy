/**
 * Decimal text of integers: Python's `str(n)` (used by the f-strings that
 * format a status code or a follower count) and `int(s)` on a string of
 * digits (used by the follower heuristic).
 */
module Decimal {
  import opened Text

  predicate AllDigits(s: string) { forall k :: 0 <= k < |s| ==> IsDigit(s[k]) }

  function DigitValue(c: char): (d: nat)
    requires IsDigit(c)
    ensures d < 10
  {
    (c as int) - ('0' as int)
  }

  function DigitChar(d: nat): (c: char)
    requires d < 10
    ensures IsDigit(c) && DigitValue(c) == d
  {
    (('0' as int) + d) as char
  }

  /** `int(s)` for a string of ASCII digits; leading zeros are allowed, as in Python. */
  function DigitsValue(s: string): (n: nat)
    requires AllDigits(s)
    ensures n == 0 <==> forall k :: 0 <= k < |s| ==> s[k] == '0'
  {
    if s == [] then 0 else 10 * DigitsValue(s[..|s| - 1]) + DigitValue(s[|s| - 1])
  }

  /** `int()` ignores leading zeros: `"007"` reads as 7. */
  lemma {:induction false} LeadingZeroIgnored(s: string)
    requires AllDigits(s)
    ensures AllDigits("0" + s) && DigitsValue("0" + s) == DigitsValue(s)
    decreases |s|
  {
    var z := "0" + s;
    assert AllDigits(z) by {
      forall k | 0 <= k < |z| ensures IsDigit(z[k]) { if k > 0 { assert z[k] == s[k - 1]; } }
    }
    if s != [] {
      var init := s[..|s| - 1];
      assert AllDigits(init) by {
        forall k | 0 <= k < |init| ensures IsDigit(init[k]) { assert init[k] == s[k]; }
      }
      LeadingZeroIgnored(init);
      assert z[..|z| - 1] == "0" + init;
      assert z[|z| - 1] == s[|s| - 1];
    }
  }

  /** `str(n)` for a natural number: the shortest decimal text of `n`. */
  function NatText(n: nat): (s: string)
    ensures |s| > 0 && AllDigits(s)
    ensures DigitsValue(s) == n
    ensures s[0] == '0' ==> n == 0 && s == "0"
  {
    if n < 10 then [DigitChar(n)]
    else
      var s := NatText(n / 10) + [DigitChar(n % 10)];
      assert s[..|s| - 1] == NatText(n / 10);
      s
  }

  /** `str(i)` for any integer: a minus sign before the digits of a negative number. */
  function IntText(i: int): (s: string)
    ensures |s| > 0
    ensures i >= 0 ==> AllDigits(s) && DigitsValue(s) == i
    ensures i < 0 ==> s[0] == '-' && AllDigits(s[1..]) && DigitsValue(s[1..]) == -i
    ensures i >= 0 && s[0] == '0' ==> s == "0"
    ensures i < 0 ==> |s| > 1 && s[1] != '0'
  {
    if i < 0 then "-" + NatText(-i) else NatText(i)
  }

  /** `re.sub(r"[^\d]", "", s)`: the digits of `s`, in order. */
  function KeepDigits(s: string): (r: string)
    ensures AllDigits(r) && |r| <= |s|
    ensures r == [] <==> !HasDigit(s)
    ensures AllDigits(s) ==> r == s
    ensures |s| == 1 ==> r == if IsDigit(s[0]) then s else []
  {
    if s == [] then []
    else
      var rest := KeepDigits(s[1..]);
      assert HasDigit(s[1..]) ==> HasDigit(s) by {
        if HasDigit(s[1..]) { var k :| 0 <= k < |s[1..]| && IsDigit(s[1..][k]); assert IsDigit(s[k + 1]); }
      }
      assert HasDigit(s) && !IsDigit(s[0]) ==> HasDigit(s[1..]) by {
        if HasDigit(s) && !IsDigit(s[0]) { var k :| 0 <= k < |s| && IsDigit(s[k]); assert IsDigit(s[1..][k - 1]); }
      }
      if IsDigit(s[0]) then [s[0]] + rest else rest
  }

  /** Filtering distributes over concatenation: the digits of `a + b` are those of `a`, then those of `b`. */
  lemma {:induction false} KeepDigitsAppend(a: string, b: string)
    ensures KeepDigits(a + b) == KeepDigits(a) + KeepDigits(b)
    decreases |a|
  {
    if a != [] {
      assert (a + b)[1..] == a[1..] + b;
      assert (a + b)[0] == a[0];
      KeepDigitsAppend(a[1..], b);
    } else {
      assert a + b == b;
    }
  }

  /** `"1,234"` keeps the digits `"1234"`, which read as 1234. */
  lemma ThousandsDigits()
    ensures KeepDigits("1,234") == "1234" && DigitsValue("1234") == 1234
  {
    assert "1,234"[1..] == ",234" && ",234"[1..] == "234";
    assert "234"[1..] == "34" && "34"[1..] == "4";
    assert "1234"[..3] == "123" && "123"[..2] == "12" && "12"[..1] == "1";
  }
}
