/** Character classes and the string operations that the schemas rely on:
    ECMAScript's `String.prototype.trim` (the `trim: true` schema option)
    and the `\d` class of a regular expression. */
module Strings {
  import opened Wrappers

  /** A present, non-empty string: what a `required` validator accepts of a string
      path, and the JavaScript truthiness of an optional string. */
  predicate Supplied(v: Option<string>) {
    v.Some? && v.value != ""
  }

  /** ECMAScript WhiteSpace and LineTerminator code points, the set `trim` removes. */
  predicate IsWhitespace(c: char) {
    ('\U{9}' <= c <= '\U{D}') || c == ' ' || c == '\U{A0}' || c == '\U{1680}' ||
    ('\U{2000}' <= c <= '\U{200A}') || c == '\U{2028}' || c == '\U{2029}' ||
    c == '\U{202F}' || c == '\U{205F}' || c == '\U{3000}' || c == '\U{FEFF}'
  }

  /** The `\d` class of a regular expression without the `u` flag: ASCII digits only. */
  predicate IsAsciiDigit(c: char) {
    '0' <= c <= '9'
  }

  predicate AllWhitespace(s: string) {
    forall i :: 0 <= i < |s| ==> IsWhitespace(s[i])
  }

  /** Removes leading whitespace: the result is the longest suffix of `s` that starts with a non-space. */
  function TrimStart(s: string): (r: string)
    ensures |r| <= |s| && r == s[|s| - |r|..]
    ensures AllWhitespace(s[..|s| - |r|])
    ensures r == [] || !IsWhitespace(r[0])
    decreases |s|
  {
    if |s| > 0 && IsWhitespace(s[0]) then
      var r := TrimStart(s[1..]);
      assert s[..|s| - |r|] == [s[0]] + s[1..][..|s| - 1 - |r|];
      r
    else
      s
  }

  /** Removes trailing whitespace: the result is the longest prefix of `s` that ends with a non-space. */
  function TrimEnd(s: string): (r: string)
    ensures |r| <= |s| && r == s[..|r|]
    ensures AllWhitespace(s[|r|..])
    ensures r == [] || !IsWhitespace(r[|r| - 1])
    decreases |s|
  {
    if |s| > 0 && IsWhitespace(s[|s| - 1]) then
      var r := TrimEnd(s[..|s| - 1]);
      assert s[|r|..] == s[..|s| - 1][|r|..] + [s[|s| - 1]];
      r
    else
      s
  }

  /** `String.prototype.trim`. */
  function Trim(s: string): (r: string)
    ensures |r| <= |s|
    ensures r == [] || (!IsWhitespace(r[0]) && !IsWhitespace(r[|r| - 1]))
  {
    TrimEnd(TrimStart(s))
  }

  /** `trim` removes whitespace and nothing else, and only at the two ends: the
      result is a slice of the input with whitespace on either side of it. */
  lemma TrimSlice(s: string)
    ensures exists i, j :: 0 <= i <= j <= |s| && Trim(s) == s[i..j] && AllWhitespace(s[..i]) && AllWhitespace(s[j..])
  {
    var a := TrimStart(s);
    var b := TrimEnd(a);
    var i, j := |s| - |a|, |s| - |a| + |b|;
    assert Trim(s) == b;
    assert a == s[i..] && b == a[..|b|];
    assert s[i..j] == a[..|b|] && s[j..] == a[|b|..];
    assert AllWhitespace(s[..i]) && AllWhitespace(s[j..]);
    assert 0 <= i <= j <= |s| && Trim(s) == s[i..j];
  }

  /** Trimming a string that neither starts nor ends with whitespace leaves it as it is. */
  lemma {:induction false} TrimOfTrimmed(s: string)
    requires s == [] || (!IsWhitespace(s[0]) && !IsWhitespace(s[|s| - 1]))
    ensures Trim(s) == s
  {
  }

  /** Trimming twice is trimming once: a trimmed value is stable under the schema's setter. */
  lemma TrimIdempotent(s: string)
    ensures Trim(Trim(s)) == Trim(s)
  {
    TrimOfTrimmed(Trim(s));
  }

  /** A string trims to the empty string exactly when it consists of whitespace only. */
  lemma {:induction false} TrimEmptyIff(s: string)
    ensures Trim(s) == [] <==> AllWhitespace(s)
  {
  }
}
