/**
 * The few Python string operations the triage pipeline relies on:
 * `str.lower()`, `str.strip()` and the substring test `needle in hay`.
 */
module Text {

  /**
   * `str.lower()` on one character. ASCII capitals map to ASCII small letters; the
   * KELVIN SIGN (U+212A) is the one other character whose lower-case form is a plain
   * ASCII letter ('k'), so it is included. Every other character is left as it is.
   */
  function LowerChar(c: char): char {
    if 'A' <= c <= 'Z' then (c as int + 32) as char
    else if c == '\U{212A}' then 'k'
    else c
  }

  /** Two texts that differ at most in the letter case of their characters. */
  predicate SameUpToCase(a: string, b: string) {
    |a| == |b| && forall i :: 0 <= i < |a| ==> LowerChar(a[i]) == LowerChar(b[i])
  }

  /** The text has no character that `lower()` would change. */
  predicate NoCapitals(s: string) {
    forall i :: 0 <= i < |s| ==> !('A' <= s[i] <= 'Z') && s[i] != '\U{212A}'
  }

  /**
   * `s.lower()`, character by character: the result differs from `s` only in
   * letter case, and no capital letter is left in it.
   */
  function Lower(s: string): (r: string)
    ensures SameUpToCase(s, r)
    ensures NoCapitals(r)
  {
    seq(|s|, i requires 0 <= i < |s| => LowerChar(s[i]))
  }

  /** Lower-casing twice is lower-casing once. */
  lemma LowerIdempotent(s: string)
    ensures Lower(Lower(s)) == Lower(s)
  {
    LowerOfLowercase(Lower(s));
  }

  /** Lower-casing two texts gives the same text exactly when they differ only in case. */
  lemma SameUpToCaseIffSameLower(a: string, b: string)
    ensures SameUpToCase(a, b) <==> Lower(a) == Lower(b)
  {
    if Lower(a) == Lower(b) {
      forall i | 0 <= i < |a|
        ensures LowerChar(a[i]) == LowerChar(b[i])
      {
        assert Lower(a)[i] == Lower(b)[i];
      }
    }
  }

  lemma LowerAppend(a: string, b: string)
    ensures Lower(a + b) == Lower(a) + Lower(b)
  {
  }

  /** A text with no capital letter is its own lower-case form. */
  lemma LowerOfLowercase(s: string)
    requires NoCapitals(s)
    ensures Lower(s) == s
  {
  }

  /** `c.isspace()`: the characters Python's `str.strip()` removes by default. */
  predicate IsSpace(c: char) {
    var n := c as int;
    (9 <= n <= 13) || (28 <= n <= 32) || n == 0x85 || n == 0xA0 || n == 0x1680
    || (0x2000 <= n <= 0x200A) || n == 0x2028 || n == 0x2029 || n == 0x202F
    || n == 0x205F || n == 0x3000
  }

  predicate AllSpace(s: string) {
    forall i :: 0 <= i < |s| ==> IsSpace(s[i])
  }

  /** `s.lstrip()` */
  function TrimLeft(s: string): (r: string)
    ensures |r| <= |s|
  {
    if |s| > 0 && IsSpace(s[0]) then TrimLeft(s[1..]) else s
  }

  /** `s.rstrip()` */
  function TrimRight(s: string): (r: string)
    ensures |r| <= |s|
  {
    if |s| > 0 && IsSpace(s[|s| - 1]) then TrimRight(s[..|s| - 1]) else s
  }

  /** `lstrip()` removes a whitespace prefix and keeps the rest, which starts with no whitespace. */
  lemma {:induction false} TrimLeftShape(s: string)
    ensures var r := TrimLeft(s);
      r == s[|s| - |r|..] && AllSpace(s[..|s| - |r|]) && (r == [] || !IsSpace(r[0]))
  {
    if |s| > 0 && IsSpace(s[0]) {
      TrimLeftShape(s[1..]);
      var r := TrimLeft(s);
      assert r == TrimLeft(s[1..]);
      assert s[1..][..|s| - 1 - |r|] == s[1..|s| - |r|];
      assert s[1..][|s| - 1 - |r|..] == s[|s| - |r|..];
      assert s[..|s| - |r|] == [s[0]] + s[1..|s| - |r|];
    }
  }

  /** `rstrip()` removes a whitespace suffix and keeps the rest, which ends with no whitespace. */
  lemma {:induction false} TrimRightShape(s: string)
    ensures var r := TrimRight(s);
      r == s[..|r|] && AllSpace(s[|r|..]) && (r == [] || !IsSpace(r[|r| - 1]))
  {
    if |s| > 0 && IsSpace(s[|s| - 1]) {
      TrimRightShape(s[..|s| - 1]);
      var r := TrimRight(s);
      assert r == TrimRight(s[..|s| - 1]);
      assert s[..|s| - 1][|r|..] == s[|r|..|s| - 1];
      assert s[..|s| - 1][..|r|] == s[..|r|];
      assert s[|r|..] == s[|r|..|s| - 1] + [s[|s| - 1]];
    }
  }

  /**
   * `s.strip()`: the result is a slice of `s` that neither starts nor ends with
   * whitespace, and everything cut off on either side is whitespace.
   */
  function Strip(s: string): (r: string)
    ensures exists i :: 0 <= i <= |s| - |r| && r == s[i..i + |r|]
                        && AllSpace(s[..i]) && AllSpace(s[i + |r|..])
    ensures r == [] || (!IsSpace(r[0]) && !IsSpace(r[|r| - 1]))
  {
    var left := TrimLeft(s);
    var r := TrimRight(left);
    TrimLeftShape(s);
    TrimRightShape(left);
    var i := |s| - |left|;
    assert r == s[i..i + |r|];
    assert s[i + |r|..] == left[|r|..];
    r
  }

  /** A text that neither starts nor ends with whitespace is its own `strip()`. */
  lemma StripUnpadded(t: string)
    requires t != [] && !IsSpace(t[0]) && !IsSpace(t[|t| - 1])
    ensures Strip(t) == t
  {
    assert TrimLeft(t) == t;
    assert TrimRight(t) == t;
  }

  /** Whitespace in front of a text does not survive `lstrip()`. */
  lemma {:induction false} TrimLeftPadded(w: string, t: string)
    requires AllSpace(w)
    ensures TrimLeft(w + t) == TrimLeft(t)
  {
    if w == [] {
      assert w + t == t;
    } else {
      assert (w + t)[0] == w[0];
      assert (w + t)[1..] == w[1..] + t;
      TrimLeftPadded(w[1..], t);
    }
  }

  /** Whitespace after a text does not survive `rstrip()`. */
  lemma {:induction false} TrimRightPadded(t: string, w: string)
    requires AllSpace(w)
    ensures TrimRight(t + w) == TrimRight(t)
  {
    if w == [] {
      assert t + w == t;
    } else {
      assert (t + w)[|t + w| - 1] == w[|w| - 1];
      assert (t + w)[..|t + w| - 1] == t + w[..|w| - 1];
      TrimRightPadded(t, w[..|w| - 1]);
    }
  }

  /** Whitespace around a text does not change what `strip()` gives. */
  lemma StripPadded(w1: string, t: string, w2: string)
    requires AllSpace(w1) && AllSpace(w2)
    ensures Strip(w1 + t + w2) == Strip(t)
  {
    assert w1 + t + w2 == w1 + (t + w2);
    TrimLeftPadded(w1, t + w2);
    LeftThenPad(t, w2);
    TrimRightPadded(TrimLeft(t), w2);
  }

  /** Stripping the front of a padded text strips the front of the text itself. */
  lemma LeftThenPad(t: string, w: string)
    requires AllSpace(w)
    ensures TrimRight(TrimLeft(t + w)) == TrimRight(TrimLeft(t) + w)
  {
    var left := TrimLeft(t);
    TrimLeftShape(t);
    var k := |t| - |left|;
    assert t + w == t[..k] + (left + w) by {
      assert t == t[..k] + left;
    }
    TrimLeftPadded(t[..k], left + w);
    if left == [] {
      assert left + w == w;
      SpacesVanish(w);
    } else {
      assert (left + w)[0] == left[0];
    }
  }

  /** A text made only of whitespace strips to nothing from either side. */
  lemma {:induction false} SpacesVanish(w: string)
    requires AllSpace(w)
    ensures TrimLeft(w) == [] && TrimRight(w) == []
  {
    if w != [] {
      SpacesVanish(w[1..]);
      SpacesVanish(w[..|w| - 1]);
    }
  }

  /** `needle` occurs in `hay` starting at index `i`. */
  predicate OccursAt(hay: string, needle: string, i: int) {
    0 <= i <= |hay| - |needle| && hay[i..i + |needle|] == needle
  }

  /** Python's substring test `needle in hay`. */
  predicate Contains(hay: string, needle: string)
    ensures Contains(hay, needle) ==> |needle| <= |hay|
    ensures needle == [] ==> Contains(hay, needle)
  {
    assert needle == [] ==> OccursAt(hay, needle, 0);
    exists i | 0 <= i <= |hay| - |needle| :: OccursAt(hay, needle, i)
  }

  /** A text occurs in any text that has it as a middle part. */
  lemma ContainsMiddle(pre: string, needle: string, post: string)
    ensures Contains(pre + needle + post, needle)
  {
    assert (pre + needle + post)[|pre|..|pre| + |needle|] == needle;
    assert OccursAt(pre + needle + post, needle, |pre|);
  }

  /** In a text made of five parts, the second and the fourth occur. */
  lemma ContainsSecondAndFourth(a: string, b: string, c: string, d: string, e: string)
    ensures Contains(a + b + c + d + e, b) && Contains(a + b + c + d + e, d)
  {
    assert a + b + c + d + e == a + b + (c + d + e);
    ContainsMiddle(a, b, c + d + e);
    ContainsMiddle(a + b + c, d, e);
  }

  /** A non-empty text never occurs in the empty text. */
  lemma NotContainedInEmpty(needle: string)
    requires needle != []
    ensures !Contains([], needle)
  {
  }
}
