/**
 * Python's `str.strip()` with no argument: remove leading and trailing
 * whitespace, where whitespace is what `str.isspace()` accepts.
 */
module Text {

  /** The characters for which Python's `str.isspace()` is true. */
  predicate IsSpace(c: char)
  {
    || c == ' '
    || ('\t' <= c <= '\r')                 // \t \n \v \f \r
    || ('\U{1C}' <= c <= '\U{1F}')         // file, group, record and unit separators
    || c == '\U{85}' || c == '\U{A0}' || c == '\U{1680}'
    || ('\U{2000}' <= c <= '\U{200A}')
    || c == '\U{2028}' || c == '\U{2029}' || c == '\U{202F}' || c == '\U{205F}'
    || c == '\U{3000}'
  }

  predicate AllSpace(s: string)
  {
    forall i :: 0 <= i < |s| ==> IsSpace(s[i])
  }

  /** `str.lstrip()`: the suffix left after dropping the leading whitespace. */
  function TrimLeft(s: string): (r: string)
    ensures |r| <= |s| && r == s[|s| - |r|..]
    ensures AllSpace(s[..|s| - |r|])
    ensures r == [] || !IsSpace(r[0])
  {
    if |s| > 0 && IsSpace(s[0]) then
      var r := TrimLeft(s[1..]);
      assert s[..|s| - |r|] == [s[0]] + s[1..][..|s| - 1 - |r|];
      r
    else
      s
  }

  /** `str.rstrip()`: the prefix left after dropping the trailing whitespace. */
  function TrimRight(s: string): (r: string)
    ensures |r| <= |s| && r == s[..|r|]
    ensures AllSpace(s[|r|..])
    ensures r == [] || !IsSpace(r[|r| - 1])
  {
    if |s| > 0 && IsSpace(s[|s| - 1]) then
      var r := TrimRight(s[..|s| - 1]);
      assert s[|r|..] == s[..|s| - 1][|r|..] + [s[|s| - 1]];
      r
    else
      s
  }

  /** `str.strip()`: no longer than the input, and with no whitespace at either edge. */
  function Strip(s: string): (r: string)
    ensures |r| <= |s|
    ensures r == [] || (!IsSpace(r[0]) && !IsSpace(r[|r| - 1]))
  {
    var l := TrimLeft(s);
    var r := TrimRight(l);
    assert r != [] ==> r[0] == l[0];
    r
  }

  /**
   * `r` sits in `s` at offset `i`, and everything of `s` before and after
   * it is whitespace.
   */
  predicate PaddedAt(s: string, r: string, i: nat)
  {
    && i + |r| <= |s| && r == s[i..i + |r|]
    && AllSpace(s[..i]) && AllSpace(s[i + |r|..])
  }

  /** `r`, a prefix of the suffix `l` of `s` at `i`, sits in `s` at `i`. */
  lemma PaddedInSuffix(s: string, l: string, r: string, i: nat)
    requires i <= |s| && l == s[i..] && |r| <= |l| && r == l[..|r|]
    requires AllSpace(s[..i]) && AllSpace(l[|r|..])
    ensures PaddedAt(s, r, i)
  {
    assert s[i..i + |r|] == l[..|r|];
    assert s[i + |r|..] == l[|r|..];
  }

  /**
   * A stripped string is the piece of the input that starts after the
   * leading whitespace, and everything around it is whitespace.
   */
  lemma StripIsInfix(s: string)
    ensures PaddedAt(s, Strip(s), |s| - |TrimLeft(s)|)
  {
    var l := TrimLeft(s);
    PaddedInSuffix(s, l, TrimRight(l), |s| - |l|);
  }

  lemma {:induction false} TrimLeftOfSpaces(a: string, t: string)
    requires AllSpace(a)
    ensures TrimLeft(a + t) == TrimLeft(t)
  {
    if a == [] {
      assert a + t == t;
    } else {
      assert (a + t)[0] == a[0];
      assert (a + t)[1..] == a[1..] + t;
      TrimLeftOfSpaces(a[1..], t);
    }
  }

  lemma {:induction false} TrimRightOfSpaces(t: string, b: string)
    requires AllSpace(b)
    ensures TrimRight(t + b) == TrimRight(t)
  {
    if b == [] {
      assert t + b == t;
    } else {
      assert (t + b)[|t + b| - 1] == b[|b| - 1];
      assert (t + b)[..|t + b| - 1] == t + b[..|b| - 1];
      TrimRightOfSpaces(t, b[..|b| - 1]);
    }
  }

  /** Appending text after `s` does not change how much leading whitespace is dropped. */
  lemma {:induction false} TrimLeftAppend(s: string, b: string)
    ensures TrimLeft(s + b) == if TrimLeft(s) == [] then TrimLeft(b) else TrimLeft(s) + b
  {
    if s == [] {
      assert s + b == b;
    } else {
      assert (s + b)[0] == s[0];
      if IsSpace(s[0]) {
        assert (s + b)[1..] == s[1..] + b;
        TrimLeftAppend(s[1..], b);
      }
    }
  }

  /** Padding a string with whitespace on either side does not change its stripped form. */
  lemma StripPadded(a: string, s: string, b: string)
    requires AllSpace(a) && AllSpace(b)
    ensures Strip(a + s + b) == Strip(s)
  {
    assert a + s + b == a + (s + b);
    TrimLeftOfSpaces(a, s + b);
    TrimLeftAppend(s, b);
    if TrimLeft(s) == [] {
      assert TrimLeft(b) == [] by {
        TrimLeftOfSpaces(b, []);
        assert b + [] == b;
      }
    } else {
      TrimRightOfSpaces(TrimLeft(s), b);
    }
  }

  /** A string without leading or trailing whitespace is its own stripped form. */
  lemma StripFixed(s: string)
    requires s == [] || (!IsSpace(s[0]) && !IsSpace(s[|s| - 1]))
    ensures Strip(s) == s
  {
  }

  /** Whitespace around a string without edge whitespace is exactly what strip removes. */
  lemma StripRecovers(pre: string, s: string, post: string)
    requires AllSpace(pre) && AllSpace(post)
    requires s == [] || (!IsSpace(s[0]) && !IsSpace(s[|s| - 1]))
    ensures Strip(pre + s + post) == s
  {
    StripPadded(pre, s, post);
    StripFixed(s);
  }

  /** Stripping twice is stripping once. */
  lemma StripIdempotent(s: string)
    ensures Strip(Strip(s)) == Strip(s)
  {
    StripFixed(Strip(s));
  }

  /** A string made only of whitespace strips to the empty string. */
  lemma {:induction false} StripAllSpace(s: string)
    requires AllSpace(s)
    ensures Strip(s) == []
  {
    TrimLeftOfSpaces(s, []);
    assert s + [] == s;
  }
}
