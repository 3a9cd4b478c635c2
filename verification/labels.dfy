/** Label normalisation: Python's `str.strip()` with no argument, and an ASCII
    instance of `str.lower()` used only to build concrete scenarios. */
module Labels {

  /** The characters Python's `str.isspace()` accepts, which `str.strip()` removes:
      tab to carriage return, the four information separators, space, NEL, NBSP,
      and the Unicode space separators and line/paragraph separators. */
  predicate IsSpace(c: char) {
    var n := c as int;
    || (0x09 <= n <= 0x0D)
    || (0x1C <= n <= 0x20)
    || n == 0x85 || n == 0xA0 || n == 0x1680
    || (0x2000 <= n <= 0x200A)
    || n == 0x2028 || n == 0x2029 || n == 0x202F || n == 0x205F || n == 0x3000
  }

  predicate AllSpace(s: string) {
    forall i :: 0 <= i < |s| ==> IsSpace(s[i])
  }

  /** A string with no removable character at either end: what `strip()` returns. */
  predicate Stripped(s: string) {
    s == [] || (!IsSpace(s[0]) && !IsSpace(s[|s| - 1]))
  }

  /** How many whitespace characters `s` starts with. */
  function LeadingSpaces(s: string): (k: nat)
    ensures k <= |s|
    ensures forall i :: 0 <= i < k ==> IsSpace(s[i])
    ensures k < |s| ==> !IsSpace(s[k])
  {
    if |s| > 0 && IsSpace(s[0]) then 1 + LeadingSpaces(s[1..]) else 0
  }

  /** How many whitespace characters `s` ends with. */
  function TrailingSpaces(s: string): (k: nat)
    ensures k <= |s|
    ensures forall i :: |s| - k <= i < |s| ==> IsSpace(s[i])
    ensures k < |s| ==> !IsSpace(s[|s| - 1 - k])
  {
    if |s| > 0 && IsSpace(s[|s| - 1]) then 1 + TrailingSpaces(s[..|s| - 1]) else 0
  }

  /** `s.strip()`: `s` with its leading and then its trailing whitespace cut off.
      The result neither starts nor ends with whitespace and is no longer than `s`. */
  function Strip(s: string): (r: string)
    ensures Stripped(r)
    ensures |r| <= |s|
  {
    var i := LeadingSpaces(s);
    var t := s[i..];
    s[i..|s| - TrailingSpaces(t)]
  }

  /** What `strip()` removes is whitespace only: its result is a slice of `s`
      with nothing but whitespace on either side of it. */
  lemma StripIsSlice(s: string)
    ensures exists i :: 0 <= i <= |s| - |Strip(s)| && Strip(s) == s[i..i + |Strip(s)|]
                        && AllSpace(s[..i]) && AllSpace(s[i + |Strip(s)|..])
  {
    var i, j := StripCuts(s);
    assert AllSpace(s[..i]);
    assert AllSpace(s[j..]);
    assert i + |Strip(s)| == j;
  }

  /** A string of spaces, something stripped, and spaces strips to that something:
      together with the contract of `Strip` this pins its result down uniquely. */
  lemma StripUnique(a: string, m: string, b: string)
    requires AllSpace(a) && AllSpace(b) && Stripped(m)
    ensures Strip(a + m + b) == m
  {
    var s := a + m + b;
    var i := LeadingSpaces(s);
    if m != [] {
      assert i == |a| by {
        assert s[|a|] == m[0];
      }
      var t := s[i..];
      assert t == m + b;
      var k := TrailingSpaces(t);
      assert k == |b| by {
        assert t[|m| - 1] == m[|m| - 1];
      }
      assert s[i..|s| - k] == m;
    }
  }

  /** Stripping twice is stripping once, so `get_product_info`'s second `strip()`
      of an already stripped label changes nothing. */
  lemma StripIdempotent(s: string)
    ensures Strip(Strip(s)) == Strip(s)
  {
    var m := Strip(s);
    assert [] + m + [] == m;
    StripUnique([], m, []);
  }

  /** A string that is already stripped is its own `strip()`. */
  lemma StripKeepsStripped(s: string)
    requires Stripped(s)
    ensures Strip(s) == s
  {
    assert [] + s + [] == s;
    StripUnique([], s, []);
  }

  /** ASCII upper-case letters mapped to lower case, everything else unchanged:
      a concrete instance of `str.lower()` for scenarios over ASCII labels. */
  function AsciiLower(s: string): (r: string)
    ensures |r| == |s|
    ensures forall i :: 0 <= i < |s| ==>
      r[i] == (if 'A' <= s[i] <= 'Z' then (s[i] as int + 32) as char else s[i])
  {
    if s == [] then []
    else
      [if 'A' <= s[0] <= 'Z' then (s[0] as int + 32) as char else s[0]] + AsciiLower(s[1..])
  }

  /** `a` and `b` have the same length and whitespace at the same positions. */
  predicate SameSpaces(a: string, b: string) {
    |a| == |b| && forall i :: 0 <= i < |a| ==> (IsSpace(a[i]) <==> IsSpace(b[i]))
  }

  /** Two labels with the same lower-cased form have whitespace at the same
      positions, and where they differ both hold a letter, not whitespace. */
  lemma CaseVariantsShareSpaces(a: string, b: string)
    requires AsciiLower(a) == AsciiLower(b)
    ensures SameSpaces(a, b)
    ensures forall d :: 0 <= d < |a| && a[d] != b[d] ==> !IsSpace(a[d]) && !IsSpace(b[d])
  {
  }

  /** Labels with whitespace at the same positions lose the same number of
      leading and trailing characters to `strip()`. */
  lemma SameSpacesSameCuts(a: string, b: string)
    requires SameSpaces(a, b)
    ensures LeadingSpaces(a) == LeadingSpaces(b)
    ensures TrailingSpaces(a) == TrailingSpaces(b)
  {
  }

  /** Where `strip()` cuts `s`: everything before `i` and from `j` on is
      whitespace, and the result is the characters between. */
  lemma StripCuts(s: string) returns (i: nat, j: nat)
    ensures i == LeadingSpaces(s) && j == |s| - TrailingSpaces(s[i..])
    ensures i <= j <= |s| && Strip(s) == s[i..j]
    ensures forall d :: j <= d < |s| ==> IsSpace(s[d])
  {
    i := LeadingSpaces(s);
    var t := s[i..];
    j := |s| - TrailingSpaces(t);
    forall d | j <= d < |s|
      ensures IsSpace(s[d])
    {
      assert s[d] == t[d - i];
    }
  }

  /** The parts of two labels after the same position keep whitespace at the
      same positions. */
  lemma SameSpacesSuffix(a: string, b: string, i: nat)
    requires SameSpaces(a, b) && i <= |a|
    ensures SameSpaces(a[i..], b[i..])
  {
  }

  /** `strip()` keeps the same slice of two labels with whitespace at the same
      positions: the characters from `i` up to `j`. */
  lemma SameSpacesSameSlice(a: string, b: string) returns (i: nat, j: nat)
    requires SameSpaces(a, b)
    ensures i <= j <= |a| && Strip(a) == a[i..j] && Strip(b) == b[i..j]
    ensures forall d :: 0 <= d < i ==> IsSpace(a[d])
    ensures forall d :: j <= d < |a| ==> IsSpace(a[d])
  {
    SameSpacesSameCuts(a, b);
    i, j := StripCuts(a);
    var ib, jb := StripCuts(b);
    assert ib == i;
    SameSpacesSuffix(a, b, i);
    SameSpacesSameCuts(a[i..], b[i..]);
    assert jb == j;
  }

  /** The dedup key does not fold case: two different labels that lower-case to
      the same string strip to different keys. */
  lemma CaseVariantsAreDistinctKeys(a: string, b: string)
    requires AsciiLower(a) == AsciiLower(b) && a != b
    ensures Strip(a) != Strip(b)
  {
    CaseVariantsShareSpaces(a, b);
    var i, j := SameSpacesSameSlice(a, b);
    var d :| 0 <= d < |a| && a[d] != b[d];
    assert i <= d < j;
    assert Strip(a)[d - i] == a[d] && Strip(b)[d - i] == b[d];
  }
}
