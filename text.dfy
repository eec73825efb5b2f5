/**
 * The string operations the widgets apply to names typed by the user:
 * Python's `str.strip()` with no argument, and the byte-wise ordering SQLite
 * uses for `ORDER BY name` (UTF-8 byte order, which is code-point order).
 */
module Text {

  /** The characters Python's `str.isspace()` accepts, the ones `strip()` removes. */
  predicate IsSpace(c: char) {
    || c == ' ' || c == '\t' || c == '\n' || c == '\r'
    || c == '\U{B}' || c == '\U{C}'
    || ('\U{1C}' <= c <= '\U{1F}')
    || c == '\U{85}' || c == '\U{A0}' || c == '\U{1680}'
    || ('\U{2000}' <= c <= '\U{200A}')
    || c == '\U{2028}' || c == '\U{2029}' || c == '\U{202F}' || c == '\U{205F}' || c == '\U{3000}'
  }

  predicate AllSpace(s: string) {
    forall i :: 0 <= i < |s| ==> IsSpace(s[i])
  }

  /** A string with no whitespace at either end: what `strip()` produces. */
  predicate Unpadded(s: string) {
    s == [] || (!IsSpace(s[0]) && !IsSpace(s[|s| - 1]))
  }

  /** Length of the longest all-whitespace prefix. */
  function LeadingSpaces(s: string): (n: nat)
    ensures n <= |s|
    ensures AllSpace(s[..n])
    ensures n < |s| ==> !IsSpace(s[n])
  {
    if |s| == 0 || !IsSpace(s[0]) then 0
    else
      var n := 1 + LeadingSpaces(s[1..]);
      assert s[..n] == [s[0]] + s[1..][..n - 1];
      n
  }

  /** Length of the longest all-whitespace suffix. */
  function TrailingSpaces(s: string): (n: nat)
    ensures n <= |s|
    ensures AllSpace(s[|s| - n..])
    ensures n < |s| ==> !IsSpace(s[|s| - 1 - n])
  {
    if |s| == 0 || !IsSpace(s[|s| - 1]) then 0
    else
      var n := 1 + TrailingSpaces(s[..|s| - 1]);
      SpacesBeforeLast(s, n);
      n
  }

  /** Growing a whitespace suffix of `s` without its last character by that (whitespace) character. */
  lemma SpacesBeforeLast(s: string, n: nat)
    requires 0 < n <= |s| && IsSpace(s[|s| - 1]) && AllSpace(s[..|s| - 1][|s| - n..])
    ensures AllSpace(s[|s| - n..])
  {
    var p, w := s[..|s| - 1], s[|s| - n..];
    forall i | 0 <= i < n ensures IsSpace(w[i]) {
      if i < n - 1 {
        assert w[i] == p[|s| - n..][i];
      }
    }
  }

  /** Python's `s.strip()`. */
  function Trim(s: string): (r: string)
    ensures Unpadded(r)
    ensures |r| <= |s|
    ensures r == [] <==> AllSpace(s)
    ensures exists i :: 0 <= i <= |s| - |r| && r == s[i..i + |r|] && AllSpace(s[..i]) && AllSpace(s[i + |r|..])
  {
    var a := LeadingSpaces(s);
    if a == |s| then
      assert s[..a] == s && s[a..] == [] && s[a..a] == [];
      []
    else
      var b := TrailingSpaces(s);
      StripParts(s, a, b);
      s[a..|s| - b]
  }

  /**
   * When `s` is not all whitespace, its leading and trailing whitespace do
   * not meet, and what lies between them starts and ends with a
   * non-whitespace character.
   */
  lemma StripParts(s: string, a: nat, b: nat)
    requires a == LeadingSpaces(s) < |s| && b == TrailingSpaces(s)
    ensures a + b < |s|
    ensures var r := s[a..|s| - b];
      Unpadded(r) && r != [] && !AllSpace(s) && r == s[a..a + |r|]
  {
    assert !IsSpace(s[a]);
    forall i | |s| - b <= i < |s| ensures IsSpace(s[i]) {
      assert s[i] == s[|s| - b..][i - (|s| - b)];
    }
  }

  /** Stripping a string that is already stripped changes nothing. */
  lemma {:induction false} TrimUnpadded(s: string)
    requires Unpadded(s)
    ensures Trim(s) == s
  {
    if s != [] {
      assert LeadingSpaces(s) == 0;
      assert TrailingSpaces(s) == 0;
    }
  }

  /** `strip()` is idempotent. */
  lemma TrimIdempotent(s: string)
    ensures Trim(Trim(s)) == Trim(s)
  {
    TrimUnpadded(Trim(s));
  }

  /** Whitespace added around a stripped name is removed again by `strip()`. */
  lemma TrimRemovesPadding(pre: string, s: string, post: string)
    requires AllSpace(pre) && AllSpace(post) && Unpadded(s)
    ensures Trim(pre + s + post) == s
  {
    var w := pre + s + post;
    if s == [] {
      assert AllSpace(w) by {
        forall i | 0 <= i < |w| ensures IsSpace(w[i]) {
          if i < |pre| { assert w[i] == pre[i]; } else { assert w[i] == post[i - |pre|]; }
        }
      }
    } else {
      assert w == pre + (s + post) && w == (pre + s) + post;
      LeadingOfPadded(pre, s + post);
      assert (pre + s)[|pre + s| - 1] == s[|s| - 1];
      TrailingOfPadded(pre + s, post);
      assert w[|pre|..|w| - |post|] == s;
    }
  }

  lemma {:induction false} LeadingOfPadded(pre: string, rest: string)
    requires AllSpace(pre) && rest != [] && !IsSpace(rest[0])
    ensures LeadingSpaces(pre + rest) == |pre|
  {
    if pre != [] {
      assert (pre + rest)[1..] == pre[1..] + rest;
      LeadingOfPadded(pre[1..], rest);
    }
  }

  lemma {:induction false} TrailingOfPadded(rest: string, post: string)
    requires AllSpace(post) && rest != [] && !IsSpace(rest[|rest| - 1])
    ensures TrailingSpaces(rest + post) == |post|
  {
    if post != [] {
      var w := rest + post;
      assert w[..|w| - 1] == rest + post[..|post| - 1];
      TrailingOfPadded(rest, post[..|post| - 1]);
    }
  }

  /**
   * `a <= b` in SQLite's BINARY collation: lexicographic by code point, a
   * proper prefix first.
   */
  predicate NameLe(a: string, b: string) {
    if |a| == 0 then true
    else if |b| == 0 then false
    else if a[0] != b[0] then a[0] < b[0]
    else NameLe(a[1..], b[1..])
  }

  lemma {:induction false} NameLeTotal(a: string, b: string)
    ensures NameLe(a, b) || NameLe(b, a)
  {
    if |a| != 0 && |b| != 0 && a[0] == b[0] {
      NameLeTotal(a[1..], b[1..]);
    }
  }

  lemma {:induction false} NameLeTransitive(a: string, b: string, c: string)
    requires NameLe(a, b) && NameLe(b, c)
    ensures NameLe(a, c)
  {
    if |a| != 0 && |b| != 0 && |c| != 0 && a[0] == b[0] && b[0] == c[0] {
      NameLeTransitive(a[1..], b[1..], c[1..]);
    }
  }
}
