/**
 * The two string facts the client relies on: ECMAScript `String.prototype.trim`
 * (which strips WhiteSpace and LineTerminator code points, ECMA-262 sections 12.2
 * and 12.3) and the JavaScript `length` of a string, counted in UTF-16 code units.
 */
module Text {

  /** WhiteSpace (ECMA-262 section 12.2): TAB, VT, FF, ZWNBSP and every code point of category Zs. */
  const WhiteSpaceCodePoints: set<int> := {
    0x0009, 0x000B, 0x000C, 0xFEFF,
    0x0020, 0x00A0, 0x1680,
    0x2000, 0x2001, 0x2002, 0x2003, 0x2004, 0x2005, 0x2006, 0x2007, 0x2008, 0x2009, 0x200A,
    0x202F, 0x205F, 0x3000
  }

  /** LineTerminator (ECMA-262 section 12.3): LF, CR, LS and PS. */
  const LineTerminatorCodePoints: set<int> := {0x000A, 0x000D, 0x2028, 0x2029}

  /** The code points `trim` removes from either end. */
  predicate IsTrimmable(c: char) {
    c as int in WhiteSpaceCodePoints || c as int in LineTerminatorCodePoints
  }

  predicate AllTrimmable(s: string) {
    forall k :: 0 <= k < |s| ==> IsTrimmable(s[k])
  }

  /** Neither end of `s` is a trimmable code point. */
  predicate IsTrimmed(s: string) {
    s == [] || (!IsTrimmable(s[0]) && !IsTrimmable(s[|s| - 1]))
  }

  /** The number of trimmable code points at the start of `s`. */
  function LeadingTrimmable(s: string): (n: nat)
    ensures n <= |s|
    ensures forall k :: 0 <= k < n ==> IsTrimmable(s[k])
    ensures n < |s| ==> !IsTrimmable(s[n])
    decreases |s|
  {
    if |s| > 0 && IsTrimmable(s[0]) then 1 + LeadingTrimmable(s[1..]) else 0
  }

  /** The length of `s` without the trimmable code points at its end. */
  function TrailingStart(s: string): (n: nat)
    ensures n <= |s|
    ensures forall k :: n <= k < |s| ==> IsTrimmable(s[k])
    ensures n > 0 ==> !IsTrimmable(s[n - 1])
    decreases |s|
  {
    if |s| > 0 && IsTrimmable(s[|s| - 1]) then TrailingStart(s[..|s| - 1]) else |s|
  }

  /** Drops the leading trimmable code points. */
  function TrimStart(s: string): string {
    s[LeadingTrimmable(s)..]
  }

  /** Drops the trailing trimmable code points. */
  function TrimEnd(s: string): string {
    s[..TrailingStart(s)]
  }

  /** `String.prototype.trim`: strip from the start, then from the end. */
  function Trim(s: string): (r: string)
    ensures IsTrimmed(r)
  {
    var t := TrimStart(s);
    assert t != [] ==> !IsTrimmable(t[0]);
    TrimEnd(t)
  }

  /** Trim returns a slice of its input, with only trimmable code points outside it and none at its ends. */
  lemma TrimSlice(s: string) returns (i: nat, j: nat)
    ensures i <= j <= |s| && Trim(s) == s[i..j]
    ensures forall k :: 0 <= k < i ==> IsTrimmable(s[k])
    ensures forall k :: j <= k < |s| ==> IsTrimmable(s[k])
    ensures IsTrimmed(Trim(s))
  {
    i := LeadingTrimmable(s);
    var t := s[i..];
    j := i + TrailingStart(t);
    assert forall k :: j <= k < |s| ==> s[k] == t[k - i];
  }

  /** Leading trimmable code points followed by a non-trimmable one (or nothing) are all counted. */
  lemma {:induction false} LeadingTrimmableOf(a: string, t: string)
    requires AllTrimmable(a)
    requires t == [] || !IsTrimmable(t[0])
    ensures LeadingTrimmable(a + t) == |a|
    decreases |a|
  {
    if a != [] {
      assert (a + t)[1..] == a[1..] + t;
      LeadingTrimmableOf(a[1..], t);
    } else {
      assert a + t == t;
    }
  }

  /** Trailing trimmable code points after a non-trimmable one (or nothing) are all cut. */
  lemma {:induction false} TrailingStartOf(t: string, b: string)
    requires AllTrimmable(b)
    requires t == [] || !IsTrimmable(t[|t| - 1])
    ensures TrailingStart(t + b) == |t|
    decreases |b|
  {
    if b != [] {
      assert (t + b)[..|t + b| - 1] == t + b[..|b| - 1];
      TrailingStartOf(t, b[..|b| - 1]);
    } else {
      assert t + b == t;
    }
  }

  /** Trim removes exactly the trimmable code points from both ends: padding a trimmed string is undone. */
  lemma TrimStrips(a: string, t: string, b: string)
    requires AllTrimmable(a) && AllTrimmable(b) && IsTrimmed(t)
    ensures Trim(a + t + b) == t
  {
    if t == [] {
      assert a + t + b == (a + b) + [];
      LeadingTrimmableOf(a + b, []);
    } else {
      assert a + t + b == a + (t + b);
      LeadingTrimmableOf(a, t + b);
      assert TrimStart(a + t + b) == t + b;
      TrailingStartOf(t, b);
      assert TrimEnd(t + b) == t;
    }
  }

  /** A string is left unchanged by Trim exactly when it is already trimmed. */
  lemma TrimFixedIff(s: string)
    ensures Trim(s) == s <==> IsTrimmed(s)
  {
    if IsTrimmed(s) {
      assert [] + s + [] == s;
      TrimStrips([], s, []);
    }
  }

  /** Trimming twice is trimming once. */
  lemma TrimIdempotent(s: string)
    ensures Trim(Trim(s)) == Trim(s)
  {
    TrimFixedIff(Trim(s));
  }

  /** Trim yields the empty string exactly when every code point is trimmable. */
  lemma TrimEmptyIff(s: string)
    ensures Trim(s) == [] <==> AllTrimmable(s)
  {
    if AllTrimmable(s) {
      assert s + [] + [] == s;
      TrimStrips(s, [], []);
    } else {
      var i, j := TrimSlice(s);
      var k :| 0 <= k < |s| && !IsTrimmable(s[k]);
      assert i <= k < j;
    }
  }

  /**
   * JavaScript `length`: the number of UTF-16 code units. A code point above U+FFFF
   * is a surrogate pair and counts twice.
   */
  function Utf16Length(s: string): (n: nat)
    ensures |s| <= n <= 2 * |s|
    ensures n == 0 <==> s == []
    decreases |s|
  {
    if s == [] then 0
    else (if s[0] as int >= 0x10000 then 2 else 1) + Utf16Length(s[1..])
  }

  /** On text of the Basic Multilingual Plane the JavaScript length is the number of code points. */
  lemma {:induction false} Utf16LengthBmp(s: string)
    requires forall k :: 0 <= k < |s| ==> s[k] as int < 0x10000
    ensures Utf16Length(s) == |s|
    decreases |s|
  {
    if s != [] {
      Utf16LengthBmp(s[1..]);
    }
  }
}
