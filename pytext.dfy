/** The two Python string methods the pipeline applies to model output:
    `str.strip()` without arguments and `str.lower()`. */
module PyText {

  /** `str.isspace()`: the characters `str.strip()` removes when called without arguments. */
  predicate IsSpace(c: char) {
    || ('\t' <= c <= '\r')
    || ('\U{1C}' <= c <= '\U{1F}')
    || c == ' ' || c == '\U{85}' || c == '\U{A0}' || c == '\U{1680}'
    || ('\U{2000}' <= c <= '\U{200A}')
    || c == '\U{2028}' || c == '\U{2029}' || c == '\U{202F}' || c == '\U{205F}' || c == '\U{3000}'
  }

  /** Every character of `p` is whitespace. */
  ghost predicate Padding(p: string) {
    forall k :: 0 <= k < |p| ==> IsSpace(p[k])
  }

  /** `r` neither starts nor ends with whitespace. */
  ghost predicate Trimmed(r: string) {
    r == [] || (!IsSpace(r[0]) && !IsSpace(r[|r| - 1]))
  }

  /** `s` is `r` with the whitespace `s[..i]` in front and whitespace after it. */
  ghost predicate Surrounds(s: string, i: int, r: string) {
    && 0 <= i <= |s| - |r|
    && s[i..i + |r|] == r
    && Padding(s[..i]) && Padding(s[i + |r|..])
  }

  /** Removes leading whitespace: the result is the suffix of `s` that starts at the
      first non-whitespace character. */
  function StripLeading(s: string): (r: string)
    ensures |r| <= |s| && r == s[|s| - |r|..]
    ensures Padding(s[..|s| - |r|])
    ensures r != [] ==> !IsSpace(r[0])
  {
    if s != [] && IsSpace(s[0]) then StripLeading(s[1..]) else s
  }

  /** Removes trailing whitespace: the result is the prefix of `s` that ends at the
      last non-whitespace character. */
  function StripTrailing(s: string): (r: string)
    ensures |r| <= |s| && r == s[..|r|]
    ensures Padding(s[|r|..])
    ensures r != [] ==> !IsSpace(r[|r| - 1])
  {
    if s != [] && IsSpace(s[|s| - 1]) then
      var r := StripTrailing(s[..|s| - 1]);
      assert s[|r|..] == s[..|s| - 1][|r|..] + [s[|s| - 1]];
      r
    else s
  }

  /** `str.strip()`: the result is trimmed, and no longer than `s`. */
  function Strip(s: string): (r: string)
    ensures Trimmed(r)
    ensures |r| <= |s|
  {
    StripTrailing(StripLeading(s))
  }

  /** `strip()` removes only whitespace, and only around the result: `s` is the
      result with whitespace in front of it and after it. */
  lemma StripSurrounds(s: string)
    ensures exists i :: Surrounds(s, i, Strip(s))
  {
    var l := StripLeading(s);
    var r := StripTrailing(l);
    assert r == Strip(s);
    var i := |s| - |l|;
    assert l[..|r|] == s[i..i + |r|];
    assert l[|r|..] == s[i + |r|..];
    assert Surrounds(s, i, r);
  }

  /** Whitespace in front of a string that does not start with whitespace is exactly
      what `StripLeading` removes. */
  lemma {:induction false} StripLeadingPadded(p: string, w: string)
    requires Padding(p)
    requires w == [] || !IsSpace(w[0])
    ensures StripLeading(p + w) == w
  {
    if p == [] {
      assert p + w == w;
    } else {
      assert (p + w)[1..] == p[1..] + w;
      StripLeadingPadded(p[1..], w);
    }
  }

  /** Whitespace after a string that does not end with whitespace is exactly what
      `StripTrailing` removes. */
  lemma {:induction false} StripTrailingPadded(w: string, q: string)
    requires Padding(q)
    requires w == [] || !IsSpace(w[|w| - 1])
    ensures StripTrailing(w + q) == w
  {
    if q == [] {
      assert w + q == w;
    } else {
      var last := |w + q| - 1;
      assert (w + q)[last] == q[|q| - 1];
      assert (w + q)[..last] == w + q[..|q| - 1];
      StripTrailingPadded(w, q[..|q| - 1]);
    }
  }

  /** `strip()` removes exactly the surrounding whitespace of a trimmed string. */
  lemma StripPadded(p: string, u: string, q: string)
    requires Padding(p) && Padding(q) && Trimmed(u)
    ensures Strip(p + u + q) == u
  {
    if u == [] {
      assert p + u + q == p + q;
      assert Padding(p + q);
      StripLeadingPadded(p + q, []);
      assert p + q + [] == p + q;
    } else {
      assert p + u + q == p + (u + q);
      StripLeadingPadded(p, u + q);
      StripTrailingPadded(u, q);
    }
  }

  /** `strip()` is idempotent. */
  lemma StripIdempotent(s: string)
    ensures Strip(Strip(s)) == Strip(s)
  {
    var r := Strip(s);
    assert [] + r + [] == r;
    StripPadded([], r, []);
  }

  /** `str.lower()` on one character. ASCII capitals and U+212A KELVIN SIGN (which
      Python lower-cases to ASCII `k`) are mapped; every other character is kept. */
  function LowerChar(c: char): char {
    if 'A' <= c <= 'Z' then (c as int + 32) as char
    else if c == '\U{212A}' then 'k'
    else c
  }

  /** `str.lower()`: character by character. */
  function Lower(s: string): (r: string)
    ensures |r| == |s|
    ensures forall k :: 0 <= k < |s| ==> r[k] == LowerChar(s[k])
  {
    if s == [] then [] else [LowerChar(s[0])] + Lower(s[1..])
  }

  /** Lower-casing never turns a non-blank character into whitespace or back: a
      string and its lower-cased form are trimmed together. */
  lemma LowerKeepsTrimmed(s: string)
    ensures Trimmed(Lower(s)) <==> Trimmed(s)
  {
    if s != [] {
      assert Lower(s)[0] == LowerChar(s[0]);
      assert Lower(s)[|s| - 1] == LowerChar(s[|s| - 1]);
    }
  }

  /** A string of lower-case ASCII letters is its own lower-cased form. */
  lemma LowerOfLowercase(s: string)
    requires forall k :: 0 <= k < |s| ==> 'a' <= s[k] <= 'z'
    ensures Lower(s) == s
  {
  }
}
