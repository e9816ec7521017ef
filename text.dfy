/**
 * The JavaScript string primitives the plugin relies on: `String.prototype.trim`,
 * `Number.prototype.toString` on a non-negative integer, and "does this pattern
 * occur in that string".
 */
module Text {

  /** The characters `String.prototype.trim` strips: ECMAScript WhiteSpace
      (TAB, VT, FF, ZWNBSP and every Zs space) and LineTerminator (LF, CR, LS, PS). */
  predicate IsJsWhitespace(c: char)
  {
    || c == '\t' || c == '\U{B}' || c == '\U{C}' || c == '\U{FEFF}'
    || c == ' ' || c == '\U{A0}' || c == '\U{1680}'
    || ('\U{2000}' <= c <= '\U{200A}')
    || c == '\U{202F}' || c == '\U{205F}' || c == '\U{3000}'
    || c == '\n' || c == '\r' || c == '\U{2028}' || c == '\U{2029}'
  }

  predicate AllWhitespace(s: string)
  {
    forall k :: 0 <= k < |s| ==> IsJsWhitespace(s[k])
  }

  /** `s` with its leading whitespace removed: a suffix of `s` that starts with a
      non-whitespace character (or is empty), and only whitespace was dropped. */
  function TrimStart(s: string): (r: string)
    ensures |r| <= |s| && r == s[|s| - |r|..]
    ensures forall k :: 0 <= k < |s| - |r| ==> IsJsWhitespace(s[k])
    ensures r == [] || !IsJsWhitespace(r[0])
  {
    if |s| > 0 && IsJsWhitespace(s[0]) then
      TrimStart(s[1..])
    else s
  }

  /** `s` with its trailing whitespace removed: a prefix of `s` that ends with a
      non-whitespace character (or is empty), and only whitespace was dropped. */
  function TrimEnd(s: string): (r: string)
    ensures |r| <= |s| && r == s[..|r|]
    ensures forall k :: |r| <= k < |s| ==> IsJsWhitespace(s[k])
    ensures r == [] || !IsJsWhitespace(r[|r| - 1])
  {
    if |s| > 0 && IsJsWhitespace(s[|s| - 1]) then
      TrimEnd(s[..|s| - 1])
    else s
  }

  /** `String.prototype.trim`: a contiguous piece of `s`, with whitespace only
      before and after it, and starting and ending with non-whitespace. */
  function Trim(s: string): (r: string)
    ensures |r| <= |s|
    ensures r == [] || (!IsJsWhitespace(r[0]) && !IsJsWhitespace(r[|r| - 1]))
    ensures exists i :: 0 <= i <= |s| - |r| && r == s[i..i + |r|]
                        && AllWhitespace(s[..i]) && AllWhitespace(s[i + |r|..])
  {
    var t := TrimStart(s);
    var r := TrimEnd(t);
    TrimmedPiece(s, t, r);
    r
  }

  /** Where the trimmed text sits in `s`: right after the leading whitespace,
      with only whitespace after it. */
  lemma TrimmedPiece(s: string, t: string, r: string)
    requires |t| <= |s| && t == s[|s| - |t|..] && forall k :: 0 <= k < |s| - |t| ==> IsJsWhitespace(s[k])
    requires |r| <= |t| && r == t[..|r|] && forall k :: |r| <= k < |t| ==> IsJsWhitespace(t[k])
    ensures var i := |s| - |t|;
      && 0 <= i <= |s| - |r| && r == s[i..i + |r|]
      && AllWhitespace(s[..i]) && AllWhitespace(s[i + |r|..])
    ensures exists i :: 0 <= i <= |s| - |r| && r == s[i..i + |r|]
                        && AllWhitespace(s[..i]) && AllWhitespace(s[i + |r|..])
  {
    var i := |s| - |t|;
    var after := s[i + |r|..];
    assert after == t[|r|..];
    forall k | 0 <= k < |after| ensures IsJsWhitespace(after[k]) {
      assert after[k] == t[|r| + k];
    }
  }

  /** The test `s.trim() === ""`. */
  predicate Blank(s: string)
  {
    Trim(s) == []
  }

  /** A string is blank exactly when it is made only of whitespace. */
  lemma BlankIffAllWhitespace(s: string)
    ensures Blank(s) <==> AllWhitespace(s)
  {
  }

  /** Trimming twice is trimming once. */
  lemma TrimIdempotent(s: string)
    ensures Trim(Trim(s)) == Trim(s)
  {
    var t := Trim(s);
    if t != [] {
      assert TrimStart(t) == t;
      assert TrimEnd(t) == t;
    }
  }

  /** A string that starts and ends with non-whitespace is its own trim. */
  lemma TrimOfTrimmed(s: string)
    requires s != [] && !IsJsWhitespace(s[0]) && !IsJsWhitespace(s[|s| - 1])
    ensures Trim(s) == s && !Blank(s)
  {
    assert TrimStart(s) == s;
  }

  predicate IsDigit(c: char)
  {
    '0' <= c <= '9'
  }

  function DigitChar(d: nat): (c: char)
    requires d < 10
    ensures IsDigit(c) && c as int - '0' as int == d
  {
    (d + '0' as int) as char
  }

  /** `n.toString()` for a non-negative integer: its decimal digits, without
      leading zeros. */
  function NatToString(n: nat): (r: string)
    ensures |r| >= 1
    ensures forall k :: 0 <= k < |r| ==> IsDigit(r[k])
    ensures |r| == 1 || r[0] != '0'
  {
    if n < 10 then [DigitChar(n)]
    else NatToString(n / 10) + [DigitChar(n % 10)]
  }

  /** The value of a string of decimal digits, read most significant first. */
  function DecimalValue(s: string): (n: nat)
    requires forall k :: 0 <= k < |s| ==> IsDigit(s[k])
  {
    if s == [] then 0
    else DecimalValue(s[..|s| - 1]) * 10 + DigitValue(s[|s| - 1])
  }

  function DigitValue(c: char): (d: nat)
    requires IsDigit(c)
  {
    c as int - '0' as int
  }

  /** Reading back the decimal text of `n` gives `n`. */
  lemma {:induction false} NatToStringRoundTrip(n: nat)
    ensures DecimalValue(NatToString(n)) == n
  {
    var r := NatToString(n);
    if n >= 10 {
      NatToStringRoundTrip(n / 10);
      assert r[..|r| - 1] == NatToString(n / 10);
    }
  }

  /** `q` occurs in `s` starting at index `k`. */
  predicate MatchAt(s: string, q: string, k: int)
  {
    0 <= k && k + |q| <= |s| && s[k..k + |q|] == q
  }

  /** `s.includes(q)`. */
  predicate Occurs(q: string, s: string)
  {
    exists k :: 0 <= k <= |s| && MatchAt(s, q, k)
  }

  /** A pattern whose first character is missing from `s` does not occur in it. */
  lemma NoOccurrenceWithoutFirstChar(s: string, q: string)
    requires |q| > 0 && q[0] !in s
    ensures !Occurs(q, s)
  {
  }

  /** A character that is not in the pattern cannot be inside a match, so the
      pattern occurs in `a + [c] + b` only if it occurs in `a` or in `b`. */
  lemma NoOccurrenceAroundSeparator(a: string, c: char, b: string, q: string)
    requires c !in q && !Occurs(q, a) && !Occurs(q, b)
    ensures !Occurs(q, a + [c] + b)
  {
    var s := a + [c] + b;
    forall k | 0 <= k <= |s| ensures !MatchAt(s, q, k) {
      if k + |q| <= |a| {
        assert s[k..k + |q|] == a[k..k + |q|];
        assert !MatchAt(a, q, k);
      } else if k > |a| {
        if k + |q| <= |s| {
          assert s[k..k + |q|] == b[k - |a| - 1..k - |a| - 1 + |q|];
          assert !MatchAt(b, q, k - |a| - 1);
        }
      } else if k + |q| <= |s| {
        assert s[k..k + |q|][|a| - k] == c;
      }
    }
  }
}
