/**
 * The three JavaScript string operations the search interface relies on:
 * `String.prototype.includes`, `String.prototype.trim` and
 * `String.prototype.toLowerCase`, over strings as sequences of characters.
 */
module Text {

  /** `t` occurs in `s` as a contiguous block starting at index `i`. */
  ghost predicate OccursAt(s: string, t: string, i: int)
  {
    0 <= i && i + |t| <= |s| && s[i..i + |t|] == t
  }

  /** Whether `t` matches `s` at offset `i`, from the `k`-th character of `t` on. */
  function PrefixAt(s: string, t: string, i: nat, k: nat): (b: bool)
    requires k <= |t| && i + |t| <= |s|
    ensures b <==> forall m :: k <= m < |t| ==> s[i + m] == t[m]
    decreases |t| - k
  {
    k == |t| || (s[i + k] == t[k] && PrefixAt(s, t, i, k + 1))
  }

  /** Whether `t` occurs in `s` at some offset `i` or later. */
  function IncludesFrom(s: string, t: string, i: nat): (b: bool)
    ensures b <==> exists j :: i <= j && OccursAt(s, t, j)
    decreases |s| - i
  {
    if i + |t| > |s| then
      assert forall j :: i <= j ==> !OccursAt(s, t, j);
      false
    else
      assert PrefixAt(s, t, i, 0) <==> OccursAt(s, t, i) by {
        if PrefixAt(s, t, i, 0) {
          assert s[i..i + |t|] == t;
        }
      }
      PrefixAt(s, t, i, 0) || IncludesFrom(s, t, i + 1)
  }

  /**
   * `s.includes(t)`: a literal, case-sensitive substring test.  The empty
   * string occurs in every string.
   */
  function Includes(s: string, t: string): (b: bool)
    ensures b <==> exists i :: OccursAt(s, t, i)
  {
    IncludesFrom(s, t, 0)
  }

  /** Every string includes the empty string and itself. */
  lemma IncludesTrivial(s: string)
    ensures Includes(s, "") && Includes(s, s)
  {
    assert OccursAt(s, "", 0);
    assert OccursAt(s, s, 0);
  }

  /** A string that lacks one of the characters of `t` cannot include `t`. */
  lemma IncludesAbsentChar(s: string, t: string, c: char)
    requires c in t && c !in s
    ensures !Includes(s, t)
  {
  }

  /**
   * When the last character of `a` does not occur in `t`, an occurrence of
   * `t` in `a + b` lies wholly inside `a` or wholly inside `b`.
   */
  lemma {:induction false} IncludesAcrossSeparator(a: string, b: string, t: string)
    requires |a| > 0 && a[|a| - 1] !in t
    ensures Includes(a + b, t) ==> Includes(a, t) || Includes(b, t)
  {
    if Includes(a + b, t) {
      var s := a + b;
      var i :| OccursAt(s, t, i);
      if i + |t| <= |a| {
        assert s[i..i + |t|] == a[i..i + |t|];
        assert OccursAt(a, t, i);
      } else if i >= |a| {
        assert s[i..i + |t|] == b[i - |a|..i - |a| + |t|];
        assert OccursAt(b, t, i - |a|);
      } else {
        OccurrenceCovers(s, t, i, |a| - 1);
      }
    }
  }

  /** Every character of `s` covered by an occurrence of `t` is a character of `t`. */
  lemma OccurrenceCovers(s: string, t: string, i: int, p: int)
    requires OccursAt(s, t, i) && i <= p < i + |t|
    ensures s[p] in t
  {
    assert s[p] == s[i..i + |t|][p - i];
  }

  /**
   * The characters `trim` removes: ECMAScript's WhiteSpace (tab, vertical
   * tab, form feed, space, no-break space, the byte-order mark and the other
   * space separators of category Zs) and LineTerminator (line feed,
   * carriage return, line and paragraph separator).
   */
  predicate IsWhitespace(c: char)
  {
    c in WhitespaceChars
  }

  const WhitespaceChars: set<char> :=
    {'\t', '\n', '\U{000B}', '\U{000C}', '\r', ' ', '\U{00A0}', '\U{1680}',
     '\U{2000}', '\U{2001}', '\U{2002}', '\U{2003}', '\U{2004}', '\U{2005}',
     '\U{2006}', '\U{2007}', '\U{2008}', '\U{2009}', '\U{200A}',
     '\U{2028}', '\U{2029}', '\U{202F}', '\U{205F}', '\U{3000}', '\U{FEFF}'}

  /** A string made of whitespace only (the empty string included). */
  predicate IsBlank(s: string)
  {
    forall i :: 0 <= i < |s| ==> IsWhitespace(s[i])
  }

  /** The number of whitespace characters at the start of `s`. */
  function LeadingBlanks(s: string): (k: nat)
    ensures k <= |s|
    ensures forall i :: 0 <= i < k ==> IsWhitespace(s[i])
    ensures k < |s| ==> !IsWhitespace(s[k])
  {
    if |s| > 0 && IsWhitespace(s[0]) then
      var k := 1 + LeadingBlanks(s[1..]);
      assert forall i :: 1 <= i < k ==> s[i] == s[1..][i - 1];
      k
    else 0
  }

  /** The number of whitespace characters at the end of `s`. */
  function TrailingBlanks(s: string): (k: nat)
    ensures k <= |s|
    ensures forall i :: |s| - k <= i < |s| ==> IsWhitespace(s[i])
    ensures k < |s| ==> !IsWhitespace(s[|s| - 1 - k])
  {
    if |s| > 0 && IsWhitespace(s[|s| - 1]) then
      var k := 1 + TrailingBlanks(s[..|s| - 1]);
      assert forall i :: |s| - k <= i < |s| - 1 ==> s[i] == s[..|s| - 1][i];
      k
    else 0
  }

  /** `s` is `r` at offset `a` with only whitespace before and after it. */
  predicate Framed(s: string, a: nat, r: string)
  {
    && a + |r| <= |s| && s[a..a + |r|] == r
    && (forall i :: 0 <= i < a ==> IsWhitespace(s[i]))
    && (forall i :: a + |r| <= i < |s| ==> IsWhitespace(s[i]))
  }

  /**
   * `s.trim()`: `s` without its leading and trailing whitespace.  The result
   * is the block of `s` left between a blank prefix and a blank suffix, and
   * it neither starts nor ends with whitespace, which fixes it; it is empty
   * exactly when `s` is blank.
   */
  function Trim(s: string): (r: string)
    ensures exists a :: Framed(s, a, r)
    ensures r != [] ==> !IsWhitespace(r[0]) && !IsWhitespace(r[|r| - 1])
    ensures r == [] <==> IsBlank(s)
  {
    var a := LeadingBlanks(s);
    var rest := s[a..];
    var k := TrailingBlanks(rest);
    var r := rest[..|rest| - k];
    TrimParts(s, a, k);
    r
  }

  /** The facts `Trim` states, for the block it cuts out. */
  lemma TrimParts(s: string, a: nat, k: nat)
    requires a == LeadingBlanks(s) && k == TrailingBlanks(s[a..])
    ensures var r := s[a..][..|s| - a - k];
      && Framed(s, a, r)
      && (r != [] ==> !IsWhitespace(r[0]) && !IsWhitespace(r[|r| - 1]))
      && (r == [] <==> IsBlank(s))
  {
    var r := s[a..][..|s| - a - k];
    TrimFramed(s, a, k, r);
    TrimEnds(s, a, k, r);
    TrimEmpty(s, a, k, r);
  }

  /** The block sits in `s` with only whitespace on either side. */
  lemma TrimFramed(s: string, a: nat, k: nat, r: string)
    requires a == LeadingBlanks(s) && k == TrailingBlanks(s[a..])
    requires r == s[a..][..|s| - a - k]
    ensures Framed(s, a, r)
  {
    assert s[a..a + |r|] == r;
    assert s[a + |r|..] == s[a..][|s| - a - k..];
  }

  /** A non-empty block starts and ends with a character `trim` keeps. */
  lemma TrimEnds(s: string, a: nat, k: nat, r: string)
    requires a == LeadingBlanks(s) && k == TrailingBlanks(s[a..])
    requires r == s[a..][..|s| - a - k]
    ensures r != [] ==> !IsWhitespace(r[0]) && !IsWhitespace(r[|r| - 1])
  {
    if r != [] {
      var rest := s[a..];
      BlockEnds(s[a], rest[|rest| - 1 - k], r);
    }
  }

  /** A block whose first and last characters are not whitespace starts and ends with a kept character. */
  lemma BlockEnds(first: char, last: char, r: string)
    requires r != [] && r[0] == first && r[|r| - 1] == last
    requires !IsWhitespace(first) && !IsWhitespace(last)
    ensures !IsWhitespace(r[0]) && !IsWhitespace(r[|r| - 1])
  {
  }

  /** The block is empty exactly when `s` is all whitespace. */
  lemma TrimEmpty(s: string, a: nat, k: nat, r: string)
    requires a == LeadingBlanks(s) && k == TrailingBlanks(s[a..])
    requires r == s[a..][..|s| - a - k]
    ensures r == [] <==> IsBlank(s)
  {
    if r == [] {
      NothingLeft(s, a, k);
      assert s[..a] == s;
    } else {
      assert !IsWhitespace(s[a]);
    }
  }

  /** When the trailing blanks after the leading ones fill the rest, there was no rest. */
  lemma NothingLeft(s: string, a: nat, k: nat)
    requires a == LeadingBlanks(s) && k == TrailingBlanks(s[a..]) && a + k == |s|
    ensures a == |s|
  {
  }

  /** Whitespace before a text does not change its leading-blank count beyond its own length. */
  lemma {:induction false} LeadingBlanksAfterBlank(p: string, s: string)
    requires IsBlank(p)
    ensures LeadingBlanks(p + s) == |p| + LeadingBlanks(s)
    decreases |p|
  {
    if p != [] {
      assert (p + s)[0] == p[0] && IsWhitespace(p[0]);
      assert (p + s)[1..] == p[1..] + s;
      LeadingBlanksAfterBlank(p[1..], s);
    } else {
      assert p + s == s;
    }
  }

  /** A text with a non-blank character keeps its leading-blank count whatever follows it. */
  lemma {:induction false} LeadingBlanksBeforeAny(s: string, q: string)
    requires !IsBlank(s)
    ensures LeadingBlanks(s + q) == LeadingBlanks(s)
    decreases |s|
  {
    if IsWhitespace(s[0]) {
      assert (s + q)[1..] == s[1..] + q;
      LeadingBlanksBeforeAny(s[1..], q);
    }
  }

  /** Whitespace after a text adds its own length to the trailing-blank count. */
  lemma {:induction false} TrailingBlanksBeforeBlank(s: string, q: string)
    requires IsBlank(q)
    ensures TrailingBlanks(s + q) == |q| + TrailingBlanks(s)
    decreases |q|
  {
    if q != [] {
      var t := s + q;
      assert t[|t| - 1] == q[|q| - 1] && IsWhitespace(q[|q| - 1]);
      assert t[..|t| - 1] == s + q[..|q| - 1];
      TrailingBlanksBeforeBlank(s, q[..|q| - 1]);
    } else {
      assert s + q == s;
    }
  }

  /** Whitespace added around a text does not change what `trim` returns. */
  lemma TrimPadding(p: string, s: string, q: string)
    requires IsBlank(p) && IsBlank(q)
    ensures Trim(p + s + q) == Trim(s)
  {
    if IsBlank(s) {
      BlankConcat(p, s, q);
    } else {
      TrimPaddingNonBlank(p, s, q);
    }
  }

  /** Three blank texts make a blank text. */
  lemma BlankConcat(p: string, s: string, q: string)
    requires IsBlank(p) && IsBlank(s) && IsBlank(q)
    ensures IsBlank(p + s + q)
  {
    var t := p + s + q;
    forall i | 0 <= i < |t| ensures IsWhitespace(t[i]) {
      if i < |p| {
        assert t[i] == p[i];
      } else if i < |p| + |s| {
        assert t[i] == s[i - |p|];
      } else {
        assert t[i] == q[i - |p| - |s|];
      }
    }
  }

  /** `TrimPadding` for a text with a non-blank character. */
  lemma TrimPaddingNonBlank(p: string, s: string, q: string)
    requires IsBlank(p) && IsBlank(q) && !IsBlank(s)
    ensures Trim(p + s + q) == Trim(s)
  {
    var a := LeadingBlanks(s);
    var k := TrailingBlanks(s[a..]);
    PaddedParts(p, s, q, a);
    TrimBeforeBlank(p + s + q, |p| + a, s[a..], q, k);
    TrimOf(s, a, k);
  }

  /**
   * A text whose leading blanks end at `b`, followed by `inner` and the
   * blank `q`, trims to `inner` without its trailing blanks.
   */
  lemma TrimBeforeBlank(t: string, b: nat, inner: string, q: string, k: nat)
    requires b == LeadingBlanks(t) && t[b..] == inner + q
    requires IsBlank(q) && k == TrailingBlanks(inner)
    ensures Trim(t) == inner[..|inner| - k]
  {
    TrailingBlanksBeforeBlank(inner, q);
    TrimOf(t, b, |q| + k);
    SliceOfPadded(t, b, inner, q, k);
  }

  lemma SliceOfPadded(t: string, b: nat, inner: string, q: string, k: nat)
    requires b <= |t| && t[b..] == inner + q && k <= |inner|
    ensures t[b..][..|t| - b - (|q| + k)] == inner[..|inner| - k]
  {
    PrefixOfAppend(inner, q, |inner| - k);
  }

  /** Where the leading blanks of a padded text end, and what follows them. */
  lemma PaddedParts(p: string, s: string, q: string, a: nat)
    requires IsBlank(p) && !IsBlank(s) && a == LeadingBlanks(s)
    ensures LeadingBlanks(p + s + q) == |p| + a
    ensures (p + s + q)[|p| + a..] == s[a..] + q
  {
    assert p + s + q == p + (s + q);
    LeadingBlanksAfterBlank(p, s + q);
    LeadingBlanksBeforeAny(s, q);
    SuffixOfPadded(p, s, q, a);
  }

  /** Cutting `|p| + a` characters off `p + s + q` cuts `a` off `s`. */
  lemma SuffixOfPadded(p: string, s: string, q: string, a: nat)
    requires a <= |s|
    ensures (p + s + q)[|p| + a..] == s[a..] + q
  {
  }

  /** A prefix of `x + y` no longer than `x` is a prefix of `x`. */
  lemma PrefixOfAppend(x: string, y: string, n: nat)
    requires n <= |x|
    ensures (x + y)[..n] == x[..n]
  {
  }

  /** `trim` cuts the leading and then the trailing whitespace. */
  lemma TrimOf(s: string, a: nat, k: nat)
    requires a == LeadingBlanks(s) && k == TrailingBlanks(s[a..])
    ensures Trim(s) == s[a..][..|s| - a - k]
  {
  }

  /** The ASCII letters `A` to `Z`. */
  predicate IsUpper(c: char)
  {
    'A' <= c <= 'Z'
  }

  /**
   * `toLowerCase` on one character, for the ASCII letters; every other
   * character (the Arabic script among them, which has no case) maps to
   * itself.
   */
  function LowerChar(c: char): (d: char)
    ensures !IsUpper(d)
    ensures !IsUpper(c) ==> d == c
    ensures IsUpper(c) ==> d as int == c as int + 32
  {
    if IsUpper(c) then (c as int + 32) as char else c
  }

  /** `s.toLowerCase()`, character by character. */
  function ToLower(s: string): (r: string)
    ensures |r| == |s|
    ensures forall i :: 0 <= i < |s| ==> r[i] == LowerChar(s[i])
    ensures forall i :: 0 <= i < |r| ==> !IsUpper(r[i])
    ensures (forall i :: 0 <= i < |s| ==> !IsUpper(s[i])) ==> r == s
  {
    seq(|s|, i requires 0 <= i < |s| => LowerChar(s[i]))
  }
}
