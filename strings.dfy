/** Python's whitespace test and `str.strip()` with no argument, on strings of Unicode scalars. */
module Strings {

  /** `str.isspace()` for one character: the characters whose bidirectional class is
      WS, B or S, or whose general category is Zs. */
  predicate IsSpace(c: char) {
    ('\t' <= c <= '\r') || ('\U{1C}' <= c <= '\U{1F}') || c == ' ' || c == '\U{85}' || c == '\U{A0}'
    || c == '\U{1680}' || ('\U{2000}' <= c <= '\U{200A}') || c == '\U{2028}' || c == '\U{2029}'
    || c == '\U{202F}' || c == '\U{205F}' || c == '\U{3000}'
  }

  predicate AllSpace(s: string) {
    forall k :: 0 <= k < |s| ==> IsSpace(s[k])
  }

  /** True when `s` neither starts nor ends with whitespace. */
  predicate Trimmed(s: string) {
    s == [] || (!IsSpace(s[0]) && !IsSpace(s[|s| - 1]))
  }

  /** How many characters of whitespace `s` starts with. */
  function LeadingSpaces(s: string): (n: nat)
    ensures n <= |s|
    ensures forall k :: 0 <= k < n ==> IsSpace(s[k])
    ensures n < |s| ==> !IsSpace(s[n])
    decreases |s|
  {
    if s != [] && IsSpace(s[0]) then
      var n := LeadingSpaces(s[1..]);
      assert forall k :: 1 <= k < n + 1 ==> s[k] == s[1..][k - 1];
      n + 1
    else 0
  }

  /** How many characters of whitespace `s` ends with. */
  function TrailingSpaces(s: string): (n: nat)
    ensures n <= |s|
    ensures forall k :: |s| - n <= k < |s| ==> IsSpace(s[k])
    ensures n < |s| ==> !IsSpace(s[|s| - n - 1])
    decreases |s|
  {
    if s != [] && IsSpace(s[|s| - 1]) then
      var n := TrailingSpaces(s[..|s| - 1]);
      assert forall k :: |s| - n - 1 <= k < |s| - 1 ==> s[k] == s[..|s| - 1][k];
      n + 1
    else 0
  }

  /** `str.strip()`: what is left of `s` once its leading and trailing whitespace is cut off. The
      result starts where the leading whitespace ends, and everything around it is whitespace. */
  function Strip(s: string): (r: string)
    ensures Trimmed(r)
    ensures LeadingSpaces(s) + |r| <= |s| && r == s[LeadingSpaces(s)..LeadingSpaces(s) + |r|]
    ensures forall k :: LeadingSpaces(s) + |r| <= k < |s| ==> IsSpace(s[k])
  {
    var i := LeadingSpaces(s);
    var j := TrailingSpaces(s[i..]);
    StripSlice(s, i, j);
    StripSliceEnd(s, i, j);
    s[i..|s| - j]
  }

  /** The slice `Strip` returns neither starts nor ends with whitespace. */
  lemma StripSlice(s: string, i: nat, j: nat)
    requires i == LeadingSpaces(s) && j == TrailingSpaces(s[i..])
    ensures i <= |s| - j && Trimmed(s[i..|s| - j])
  {
    var r := s[i..|s| - j];
    if r != [] {
      assert !IsSpace(r[0]) by {
        assert r[0] == s[i];
      }
      assert !IsSpace(r[|r| - 1]) by {
        assert r[|r| - 1] == s[i..][|s| - i - j - 1];
      }
    }
  }

  /** Only whitespace follows the slice `Strip` returns. */
  lemma StripSliceEnd(s: string, i: nat, j: nat)
    requires i <= |s| && j == TrailingSpaces(s[i..])
    ensures forall k :: |s| - j <= k < |s| ==> IsSpace(s[k])
  {
    forall k | |s| - j <= k < |s|
      ensures IsSpace(s[k])
    {
      assert s[k] == s[i..][k - i];
    }
  }

  /** Whitespace in front adds to the count of leading whitespace. */
  lemma {:induction false} LeadingSpacesPast(a: string, x: string)
    requires AllSpace(a)
    ensures LeadingSpaces(a + x) == |a| + LeadingSpaces(x)
    decreases |a|
  {
    if a != [] {
      assert (a + x)[1..] == a[1..] + x;
      LeadingSpacesPast(a[1..], x);
    } else {
      assert a + x == x;
    }
  }

  /** Whitespace at the end adds to the count of trailing whitespace. */
  lemma {:induction false} TrailingSpacesPast(x: string, b: string)
    requires AllSpace(b)
    ensures TrailingSpaces(x + b) == TrailingSpaces(x) + |b|
    decreases |b|
  {
    if b != [] {
      assert (x + b)[..|x + b| - 1] == x + b[..|b| - 1];
      TrailingSpacesPast(x, b[..|b| - 1]);
    } else {
      assert x + b == x;
    }
  }

  /** Strip is determined by its contract: whatever text is left once surrounding whitespace
      is cut off, and neither starts nor ends with whitespace, is what `strip()` returns. */
  lemma StripUnique(a: string, m: string, b: string)
    requires AllSpace(a) && AllSpace(b) && Trimmed(m)
    ensures Strip(a + m + b) == m
  {
    var s := a + m + b;
    assert s == a + (m + b);
    LeadingSpacesPast(a, m + b);
    if m == [] {
      assert m + b == b;
      LeadingSpacesPast(b, []);
      assert b + [] == b;
    } else {
      assert LeadingSpaces(m + b) == 0;
      assert s[|a|..] == m + b;
      TrailingSpacesPast(m, b);
      assert TrailingSpaces(m) == 0;
    }
  }

  /** Stripping twice is stripping once. */
  lemma StripIdempotent(s: string)
    ensures Strip(Strip(s)) == Strip(s)
  {
    var r := Strip(s);
    assert [] + r + [] == r;
    StripUnique([], r, []);
  }

  /** The query is blank, and ignored by the caller, exactly when it is all whitespace. */
  lemma StripBlank(s: string)
    ensures Strip(s) == [] <==> AllSpace(s)
  {
    if Strip(s) != [] {
      assert s[LeadingSpaces(s)] == Strip(s)[0];
    }
  }
}
