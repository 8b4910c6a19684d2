/**
 * String helpers shared by the search pages and the count labels:
 * lower-casing, substring containment (JavaScript's `String.prototype.includes`),
 * whitespace trimming (`String.prototype.trim`), decimal rendering of
 * naturals (`Number.prototype.toString` on non-negative integers) and the
 * lexicographic order on strings.
 */
module Text {

  // ---------------------------------------------------------------------------
  // Lower case (ASCII letters only)
  // ---------------------------------------------------------------------------

  /** Lower case of a single character: 'A'..'Z' map to 'a'..'z', all else is kept. */
  function LowerChar(c: char): (r: char)
    ensures 'A' <= c <= 'Z' ==> 'a' <= r <= 'z' && r as int - c as int == 32
    ensures !('A' <= c <= 'Z') ==> r == c
  {
    if 'A' <= c <= 'Z' then (c as int + 32) as char else c
  }

  /** `s.toLowerCase()`, restricted to the ASCII letters. */
  function Lower(s: string): (r: string)
    ensures |r| == |s|
    ensures forall i :: 0 <= i < |s| ==> r[i] == LowerChar(s[i])
  {
    seq(|s|, i requires 0 <= i < |s| => LowerChar(s[i]))
  }

  /** Lower-casing commutes with taking a slice. */
  lemma LowerSlice(s: string, i: int, j: int)
    requires 0 <= i <= j <= |s|
    ensures Lower(s)[i..j] == Lower(s[i..j])
  {
    assert forall k :: 0 <= k < j - i ==> s[i..j][k] == s[i + k];
  }


  // ---------------------------------------------------------------------------
  // Substring containment
  // ---------------------------------------------------------------------------

  /** `t` occurs in `s` starting at position `i`. */
  predicate OccursAt(s: string, t: string, i: int)
  {
    0 <= i && i + |t| <= |s| && s[i..i + |t|] == t
  }

  /** `s.includes(t)`. */
  predicate Contains(s: string, t: string)
  {
    exists i :: 0 <= i <= |s| && OccursAt(s, t, i)
  }

  /** `s.includes("")` holds for every `s`. */
  lemma ContainsEmpty(s: string)
    ensures Contains(s, "")
  {
    assert OccursAt(s, "", 0);
  }

  /** A string contains the term it was extended from, on either side. */
  lemma ContainsParts(t: string, u: string)
    ensures Contains(t + u, t) && Contains(u + t, t)
  {
    assert (t + u)[0..|t|] == t;
    assert OccursAt(t + u, t, 0);
    assert (u + t)[|u|..|u| + |t|] == t;
    assert OccursAt(u + t, t, |u|);
  }

  /** Containment is transitive: a substring of a substring is a substring. */
  lemma ContainsTransitive(s: string, t: string, u: string)
    requires Contains(s, t) && Contains(t, u)
    ensures Contains(s, u)
  {
    var i :| 0 <= i <= |s| && OccursAt(s, t, i);
    var j :| 0 <= j <= |t| && OccursAt(t, u, j);
    forall k | 0 <= k < |u| ensures s[i + j + k] == u[k] {
      assert u[k] == t[j + k] == s[i..i + |t|][j + k];
    }
    assert s[i + j..i + j + |u|] == u;
    assert OccursAt(s, u, i + j);
  }

  /** Lower-casing both sides keeps an occurrence where it was. */
  lemma LowerContains(s: string, t: string)
    requires Contains(s, t)
    ensures Contains(Lower(s), Lower(t))
  {
    var i :| 0 <= i <= |s| && OccursAt(s, t, i);
    LowerSlice(s, i, i + |t|);
    assert OccursAt(Lower(s), Lower(t), i);
  }

  /** A term longer than the text is never contained in it. */
  lemma NotContainsLonger(s: string, t: string)
    requires |s| < |t|
    ensures !Contains(s, t)
  {
  }

  // ---------------------------------------------------------------------------
  // Whitespace and trim
  // ---------------------------------------------------------------------------

  /**
   * The characters that `String.prototype.trim` removes: the ECMAScript
   * WhiteSpace and LineTerminator code points.
   */
  predicate IsWhitespace(c: char)
  {
    c == ' ' || c == '\t' || c == '\n' || c == '\r' || c == '\U{000B}' || c == '\U{000C}'
    || c == '\U{00A0}' || c == '\U{1680}' || ('\U{2000}' <= c <= '\U{200A}')
    || c == '\U{2028}' || c == '\U{2029}' || c == '\U{202F}' || c == '\U{205F}'
    || c == '\U{3000}' || c == '\U{FEFF}'
  }

  /** Drops leading whitespace. */
  function TrimStart(s: string): (r: string)
    ensures |r| <= |s| && r == s[|s| - |r|..]
    ensures r == [] || !IsWhitespace(r[0])
    ensures forall k :: 0 <= k < |s| - |r| ==> IsWhitespace(s[k])
  {
    if s != [] && IsWhitespace(s[0]) then TrimStart(s[1..]) else s
  }

  /** Drops trailing whitespace. */
  function TrimEnd(s: string): (r: string)
    ensures |r| <= |s| && r == s[..|r|]
    ensures r == [] || !IsWhitespace(r[|r| - 1])
    ensures forall k :: |r| <= k < |s| ==> IsWhitespace(s[k])
  {
    if s != [] && IsWhitespace(s[|s| - 1]) then TrimEnd(s[..|s| - 1]) else s
  }

  /** `s.trim()`. */
  function Trim(s: string): string
  {
    TrimEnd(TrimStart(s))
  }

  /** `s.trim()` is empty exactly when every character of `s` is whitespace. */
  lemma TrimEmptyIff(s: string)
    ensures Trim(s) == "" <==> forall k :: 0 <= k < |s| ==> IsWhitespace(s[k])
  {
    var a := TrimStart(s);
    if Trim(s) == "" {
      // A non-empty `a` would start with a non-blank that `TrimEnd` cannot remove.
      assert a == [];
    } else {
      var r := Trim(s);
      assert a[0] == r[0];
      assert !IsWhitespace(s[|s| - |a|]);
    }
  }

  // ---------------------------------------------------------------------------
  // Decimal rendering of naturals
  // ---------------------------------------------------------------------------

  predicate IsDigit(c: char)
  {
    '0' <= c <= '9'
  }

  predicate AllDigits(s: string)
  {
    forall k :: 0 <= k < |s| ==> IsDigit(s[k])
  }

  /** The character of a decimal digit. */
  function DigitChar(d: nat): (c: char)
    requires d < 10
    ensures IsDigit(c) && c as int - '0' as int == d
  {
    ('0' as int + d) as char
  }

  /** The number a string of decimal digits denotes (most significant digit first). */
  function DecimalValue(s: string): nat
    requires AllDigits(s)
  {
    if s == [] then 0
    else 10 * DecimalValue(s[..|s| - 1]) + (s[|s| - 1] as int - '0' as int)
  }

  /** `n.toString()` for a non-negative integer: its shortest decimal digit string. */
  function NatToString(n: nat): (r: string)
    ensures 1 <= |r| && AllDigits(r)
    ensures DecimalValue(r) == n
    ensures |r| > 1 ==> r[0] != '0'
    ensures (n < 10) == (|r| == 1)
  {
    if n < 10 then [DigitChar(n)]
    else
      var prefix := NatToString(n / 10);
      var r := prefix + [DigitChar(n % 10)];
      assert r[..|r| - 1] == prefix;
      r
  }

  /** Distinct naturals render differently, so the rendering can be read back. */
  lemma NatToStringInjective(m: nat, n: nat)
    requires NatToString(m) == NatToString(n)
    ensures m == n
  {
  }

  // ---------------------------------------------------------------------------
  // Lexicographic order
  // ---------------------------------------------------------------------------

  /** `a <= b` on strings, compared character by character. */
  predicate LexAtMost(a: string, b: string)
  {
    a == [] || (b != [] && (a[0] < b[0] || (a[0] == b[0] && LexAtMost(a[1..], b[1..]))))
  }
}
