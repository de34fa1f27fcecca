/**
 * `String.prototype.trim` as the client uses it: to decide whether the input
 * box holds anything but white space (App.jsx lines 29 and 93).
 */
module JsText {

  /**
   * The code points `trim` strips: the WhiteSpace and LineTerminator
   * productions of ECMA-262 (tab, vertical tab, form feed, space, no-break
   * space, the byte-order mark, the other space separators of Unicode
   * category Zs, and the four line terminators).
   */
  predicate IsWhitespace(c: char) {
    c == '\t' || c == '\U{000B}' || c == '\U{000C}' || c == ' ' ||
    c == '\U{00A0}' || c == '\U{FEFF}' ||
    c == '\U{1680}' || ('\U{2000}' <= c <= '\U{200A}') ||
    c == '\U{202F}' || c == '\U{205F}' || c == '\U{3000}' ||
    c == '\n' || c == '\r' || c == '\U{2028}' || c == '\U{2029}'
  }

  /** Every character of `s` is white space. */
  predicate AllWhitespace(s: string) {
    s == [] || (IsWhitespace(s[0]) && AllWhitespace(s[1..]))
  }

  /** `AllWhitespace` says of each character that it is white space. */
  lemma {:induction false} AllWhitespaceAt(s: string)
    ensures AllWhitespace(s) <==> forall i :: 0 <= i < |s| ==> IsWhitespace(s[i])
  {
    if s != [] {
      AllWhitespaceAt(s[1..]);
      assert forall i :: 1 <= i < |s| ==> s[i] == s[1..][i - 1];
    }
  }

  /** Each character of an all-white-space string is white space. */
  lemma {:induction false} AllWhitespaceHas(s: string, i: nat)
    requires AllWhitespace(s) && i < |s|
    ensures IsWhitespace(s[i])
  {
    if i > 0 {
      AllWhitespaceHas(s[1..], i - 1);
    }
  }

  /** White space followed by white space is white space. */
  lemma {:induction false} AllWhitespaceAppend(a: string, b: string)
    requires AllWhitespace(a) && AllWhitespace(b)
    ensures AllWhitespace(a + b)
  {
    if a != [] {
      assert (a + b)[1..] == a[1..] + b;
      AllWhitespaceAppend(a[1..], b);
    } else {
      assert a + b == b;
    }
  }

  /** A suffix of `s[1..]` after white space is a suffix of `s` after white space, when `s[0]` is white space. */
  lemma WhitespaceBefore(s: string, r: string)
    requires s != [] && IsWhitespace(s[0])
    requires |r| <= |s| - 1 && r == s[1..][|s| - 1 - |r|..] && AllWhitespace(s[1..][..|s| - 1 - |r|])
    ensures |r| <= |s| && r == s[|s| - |r|..] && AllWhitespace(s[..|s| - |r|])
  {
    var k := |s| - |r|;
    assert s[1..][k - 1..] == s[k..];
    assert s[..k][1..] == s[1..][..k - 1];
  }

  /** A prefix of `s[..|s| - 1]` before white space is a prefix of `s` before white space, when the last character is white space. */
  lemma WhitespaceAfter(s: string, r: string)
    requires s != [] && IsWhitespace(s[|s| - 1])
    requires |r| <= |s| - 1 && r == s[..|s| - 1][..|r|] && AllWhitespace(s[..|s| - 1][|r|..])
    ensures |r| <= |s| && r == s[..|r|] && AllWhitespace(s[|r|..])
  {
    assert s[..|s| - 1][..|r|] == s[..|r|];
    assert s[|r|..] == s[..|s| - 1][|r|..] + [s[|s| - 1]];
    AllWhitespaceAppend(s[..|s| - 1][|r|..], [s[|s| - 1]]);
  }

  /** `s` with its leading white space removed. */
  function TrimStart(s: string): (r: string)
    ensures |r| <= |s| && r == s[|s| - |r|..]
    ensures AllWhitespace(s[..|s| - |r|])
    ensures r == [] || !IsWhitespace(r[0])
  {
    if s != [] && IsWhitespace(s[0]) then
      var r := TrimStart(s[1..]);
      WhitespaceBefore(s, r);
      r
    else
      s
  }

  /** `s` with its trailing white space removed. */
  function TrimEnd(s: string): (r: string)
    ensures |r| <= |s| && r == s[..|r|]
    ensures AllWhitespace(s[|r|..])
    ensures r == [] || !IsWhitespace(r[|r| - 1])
  {
    if s != [] && IsWhitespace(s[|s| - 1]) then
      var r := TrimEnd(s[..|s| - 1]);
      WhitespaceAfter(s, r);
      r
    else
      s
  }

  /**
   * `s.trim()`: `s` without its leading and trailing white space (that the
   * result is this slice of `s` is `StripBothEnds`). It is empty exactly
   * when `s` is all white space, and otherwise starts and ends with a
   * character that is not white space.
   */
  function Trim(s: string): (r: string)
    ensures |r| <= |s|
    ensures r == [] <==> AllWhitespace(s)
    ensures r != [] ==> !IsWhitespace(r[0]) && !IsWhitespace(r[|r| - 1])
  {
    var t := TrimStart(s);
    var trimmed := TrimEnd(t);
    StripBothEnds(s, t, trimmed);
    trimmed
  }

  /**
   * Stripping a white-space prefix from `s`, giving `t`, and then a
   * white-space suffix from `t`, giving `r`, leaves a slice of `s` with
   * white space on either side; it is empty exactly when `s` is all white
   * space, and otherwise its ends are not white space.
   */
  lemma StripBothEnds(s: string, t: string, r: string)
    requires |t| <= |s| && t == s[|s| - |t|..] && AllWhitespace(s[..|s| - |t|])
    requires t == [] || !IsWhitespace(t[0])
    requires |r| <= |t| && r == t[..|r|] && AllWhitespace(t[|r|..])
    requires r == [] || !IsWhitespace(r[|r| - 1])
    ensures |r| <= |s|
    ensures var k := |s| - |t|;
            k + |r| <= |s| && r == s[k..k + |r|] &&
            AllWhitespace(s[..k]) && AllWhitespace(s[k + |r|..])
    ensures r == [] <==> AllWhitespace(s)
    ensures r != [] ==> !IsWhitespace(r[0]) && !IsWhitespace(r[|r| - 1])
  {
    var k := |s| - |t|;
    SuffixSlices(s, k, |r|);
    assert r != [] ==> r[0] == t[0];
    assert t != [] ==> t[0] == s[k];
    if r == [] {
      assert t[|r|..] == t;
      assert s[..|s|] == s;
    }
    if AllWhitespace(s) && t != [] {
      AllWhitespaceHas(s, k);
    }
  }

  /** Slices of the suffix `s[k..]` are slices of `s`. */
  lemma SuffixSlices(s: string, k: nat, n: nat)
    requires k + n <= |s|
    ensures s[k..][..n] == s[k..k + n] && s[k..][n..] == s[k + n..]
  {
  }

  /**
   * `!s.trim()`: the input counts as empty when `trim` leaves nothing, that
   * is, when it is all white space (`BlankIsEmptyTrim`).
   */
  predicate IsBlank(s: string) {
    AllWhitespace(s)
  }

  /** The blank test is the falsiness of `s.trim()`: the empty string is the one falsy string. */
  lemma BlankIsEmptyTrim(s: string)
    ensures IsBlank(s) <==> Trim(s) == []
  {
  }
}
