/**
 * JavaScript's `String.prototype.replaceAll(pattern, replacement)` for a
 * non-empty string pattern and a string replacement, as ECMAScript specifies it:
 * the matches are found left to right, without overlap, on the original string;
 * each is replaced by the replacement text after its `$` patterns are expanded
 * (GetSubstitution); the inserted text is never scanned again by the same call.
 */
module Replace {
  import opened Text

  /** GetSubstitution with no capture groups, for a match `matched` with the
      text `before` it and `after` it: `$$` gives `$`, `$&` the match, `` $` ``
      the text before, `$'` the text after; every other character, including a
      `$` that starts none of these, stands for itself (`$1`, `$<` refer to
      captures that a string pattern never has). */
  function Substitution(r: string, matched: string, before: string, after: string): (inserted: string)
  {
    if r == [] then []
    else if |r| >= 2 && r[0] == '$' && r[1] == '$' then "$" + Substitution(r[2..], matched, before, after)
    else if |r| >= 2 && r[0] == '$' && r[1] == '&' then matched + Substitution(r[2..], matched, before, after)
    else if |r| >= 2 && r[0] == '$' && r[1] == '`' then before + Substitution(r[2..], matched, before, after)
    else if |r| >= 2 && r[0] == '$' && r[1] == '\'' then after + Substitution(r[2..], matched, before, after)
    else [r[0]] + Substitution(r[1..], matched, before, after)
  }

  /** A replacement without `$` is inserted literally. */
  lemma {:induction false} SubstitutionLiteral(r: string, matched: string, before: string, after: string)
    requires '$' !in r
    ensures Substitution(r, matched, before, after) == r
  {
    if r != [] {
      assert '$' !in r[1..];
      SubstitutionLiteral(r[1..], matched, before, after);
    }
  }

  /** The scan of `s.replaceAll(p, r)` once the text `before` has been scanned
      and `t` is left: at a match, the expanded replacement, and the scan goes
      on after the match; otherwise one character is copied. */
  function Scan(before: string, t: string, p: string, r: string): (out: string)
    requires |p| > 0
    decreases |t|
  {
    if |t| < |p| then t
    else if t[..|p|] == p then Substitution(r, p, before, t[|p|..]) + Scan(before + p, t[|p|..], p, r)
    else [t[0]] + Scan(before + [t[0]], t[1..], p, r)
  }

  /** `s.replaceAll(p, r)`. */
  function ReplaceAll(s: string, p: string, r: string): (out: string)
    requires |p| > 0
  {
    Scan([], s, p, r)
  }

  /** Text in which the pattern does not occur is copied unchanged. */
  lemma {:induction false} NoMatchScanUnchanged(before: string, t: string, p: string, r: string)
    requires |p| > 0
    requires forall k :: 0 <= k <= |t| ==> !MatchAt(t, p, k)
    ensures Scan(before, t, p, r) == t
    decreases |t|
  {
    if |t| >= |p| {
      assert !MatchAt(t, p, 0);
      NoMatchInSuffix(t, p, 1);
      NoMatchScanUnchanged(before + [t[0]], t[1..], p, r);
    }
  }

  /** A string in which the pattern does not occur comes back unchanged. */
  lemma NoMatchUnchanged(s: string, p: string, r: string)
    requires |p| > 0 && !Occurs(p, s)
    ensures ReplaceAll(s, p, r) == s
  {
    NoMatchScanUnchanged([], s, p, r);
  }

  // ---------------------------------------------------------------------------
  // A literal replacement, scanned on the rest of the string.
  // ---------------------------------------------------------------------------

  /** The scan with a `$`-free replacement, written on the text still to be
      scanned: at a match insert `r` and skip the match, otherwise copy one
      character. */
  function Literal(t: string, p: string, r: string): (out: string)
    requires |p| > 0
    decreases |t|
  {
    if |t| < |p| then t
    else if t[..|p|] == p then r + Literal(t[|p|..], p, r)
    else [t[0]] + Literal(t[1..], p, r)
  }

  /** One step of the scan with a literal replacement. */
  lemma ScanStep(before: string, t: string, p: string, r: string)
    requires |p| > 0 && '$' !in r
    ensures |t| < |p| ==> Scan(before, t, p, r) == t
    ensures |t| >= |p| && t[..|p|] == p ==> Scan(before, t, p, r) == r + Scan(before + p, t[|p|..], p, r)
    ensures |t| >= |p| && t[..|p|] != p ==> Scan(before, t, p, r) == [t[0]] + Scan(before + [t[0]], t[1..], p, r)
  {
    if |t| >= |p| && t[..|p|] == p {
      SubstitutionLiteral(r, p, before, t[|p|..]);
    }
  }

  /** With a `$`-free replacement the text already scanned plays no part: the
      scan is the literal scan. */
  lemma {:induction false} ScanIsLiteral(before: string, t: string, p: string, r: string)
    requires |p| > 0 && '$' !in r
    ensures Scan(before, t, p, r) == Literal(t, p, r)
    decreases |t|
  {
    ScanStep(before, t, p, r);
    LiteralStep(t, p, r);
    if |t| >= |p| {
      if t[..|p|] == p {
        ScanIsLiteral(before + p, t[|p|..], p, r);
      } else {
        ScanIsLiteral(before + [t[0]], t[1..], p, r);
      }
    }
  }

  /** `s.replaceAll(p, r)` with a `$`-free `r` is the literal scan of `s`. */
  lemma ReplaceAllIsLiteral(s: string, p: string, r: string)
    requires |p| > 0 && '$' !in r
    ensures ReplaceAll(s, p, r) == Literal(s, p, r)
  {
    ScanIsLiteral([], s, p, r);
  }

  /** One step of the literal scan. */
  lemma LiteralStep(t: string, p: string, r: string)
    requires |p| > 0
    ensures |t| < |p| ==> Literal(t, p, r) == t
    ensures |t| >= |p| && t[..|p|] == p ==> Literal(t, p, r) == r + Literal(t[|p|..], p, r)
    ensures |t| >= |p| && t[..|p|] != p ==> Literal(t, p, r) == [t[0]] + Literal(t[1..], p, r)
  {
  }

  /** Every prefix of the output is either copied from the input, or holds the
      first character of the (non-empty) replacement. */
  lemma {:induction false} PrefixCopiedOrReplaced(t: string, p: string, r: string, k: nat)
    requires |p| > 0 && r != []
    requires k <= |Literal(t, p, r)|
    ensures var f := Literal(t, p, r);
      || (k <= |t| && f[..k] == t[..k])
      || (exists j :: 0 <= j < k && f[j] == r[0])
    decreases |t|
  {
    var f := Literal(t, p, r);
    if |t| < |p| {
    } else if t[..|p|] == p {
      if k > 0 {
        assert f[0] == r[0];
      }
    } else if k > 0 {
      var g := Literal(t[1..], p, r);
      PrefixCopiedOrReplaced(t[1..], p, r, k - 1);
      if k - 1 <= |t[1..]| && g[..k - 1] == t[1..][..k - 1] {
        assert f[..k] == [t[0]] + g[..k - 1];
        assert t[..k] == [t[0]] + t[1..][..k - 1];
      } else {
        var j :| 0 <= j < k - 1 && g[j] == r[0];
        assert f[j + 1] == g[j];
      }
    }
  }

  /** `q` occurs nowhere in `x + g` when it occurs nowhere in `g` and no
      occurrence starts inside `x`. */
  lemma NoMatchAfterPrefix(x: string, g: string, q: string)
    requires forall k :: 0 <= k <= |g| ==> !MatchAt(g, q, k)
    requires forall k :: 0 <= k < |x| ==> !MatchAt(x + g, q, k)
    ensures forall k :: 0 <= k <= |x + g| ==> !MatchAt(x + g, q, k)
  {
    forall k | |x| <= k <= |x + g| ensures !MatchAt(x + g, q, k) {
      if k + |q| <= |x + g| {
        assert g[k - |x|..k - |x| + |q|] == (x + g)[k..k + |q|];
        assert !MatchAt(g, q, k - |x|);
      }
    }
  }

  /** A string without `q` has no `q` in any of its suffixes. */
  lemma NoMatchInSuffix(t: string, q: string, d: nat)
    requires d <= |t|
    requires forall k :: 0 <= k <= |t| ==> !MatchAt(t, q, k)
    ensures forall k :: 0 <= k <= |t[d..]| ==> !MatchAt(t[d..], q, k)
  {
    forall k | 0 <= k <= |t[d..]| ensures !MatchAt(t[d..], q, k) {
      if k + |q| <= |t[d..]| {
        assert t[d..][k..k + |q|] == t[d + k..d + k + |q|];
        assert !MatchAt(t, q, d + k);
      }
    }
  }

  /** No occurrence of `q` starts inside an inserted `r` that shares no
      character with `q`. */
  lemma NoMatchStartsInReplacement(r: string, g: string, q: string)
    requires |q| > 0 && forall a :: 0 <= a < |r| ==> r[a] !in q
    ensures forall k :: 0 <= k < |r| ==> !MatchAt(r + g, q, k)
  {
    forall k | 0 <= k < |r| ensures !MatchAt(r + g, q, k) {
      assert q[0] in q;
      if k + |q| <= |r + g| {
        assert (r + g)[k..k + |q|][0] == r[k];
      }
    }
  }

  /** In the copy step, an occurrence of `q` at the copied character `t[0]`
      would be a match of `q` in the input, unless the text after it holds the
      replacement's first character `c`, which `q` lacks. */
  lemma NoMatchAtCopiedChar(t: string, q: string, c: char, g: string)
    requires |q| > 0 && t != [] && c !in q && !MatchAt(t, q, 0)
    requires |q| - 1 <= |g| ==>
      || (|q| - 1 <= |t[1..]| && g[..|q| - 1] == t[1..][..|q| - 1])
      || (exists j :: 0 <= j < |q| - 1 && g[j] == c)
    ensures !MatchAt([t[0]] + g, q, 0)
  {
    var f := [t[0]] + g;
    if |q| <= |f| {
      if |q| - 1 <= |t[1..]| && g[..|q| - 1] == t[1..][..|q| - 1] {
        assert f[..|q|] == t[..|q|];
      } else {
        var j :| 0 <= j < |q| - 1 && g[j] == c;
        assert f[..|q|][j + 1] == c && q[j + 1] in q;
      }
    }
  }

  /** The key fact behind "every occurrence is replaced": when the replacement is
      non-empty and shares no character with `q`, then `q` does not occur in the
      output, provided `q` is the pattern itself or did not occur in the input. */
  lemma {:induction false} NoOccurrenceInLiteral(t: string, p: string, r: string, q: string)
    requires |p| > 0 && |q| > 0 && r != []
    requires forall a :: 0 <= a < |r| ==> r[a] !in q
    requires q == p || forall k :: 0 <= k <= |t| ==> !MatchAt(t, q, k)
    ensures forall k :: 0 <= k <= |Literal(t, p, r)| ==> !MatchAt(Literal(t, p, r), q, k)
    decreases |t|
  {
    if |t| < |p| {
    } else if t[..|p|] == p {
      var g := Literal(t[|p|..], p, r);
      if q != p {
        NoMatchInSuffix(t, q, |p|);
      }
      NoOccurrenceInLiteral(t[|p|..], p, r, q);
      NoMatchStartsInReplacement(r, g, q);
      NoMatchAfterPrefix(r, g, q);
    } else {
      var g := Literal(t[1..], p, r);
      if q != p {
        NoMatchInSuffix(t, q, 1);
      }
      NoOccurrenceInLiteral(t[1..], p, r, q);
      PrefixCopiedOrReplaced(t[1..], p, r, if |q| - 1 <= |g| then |q| - 1 else 0);
      assert r[0] !in q;
      NoMatchAtCopiedChar(t, q, r[0], g);
      NoMatchAfterPrefix([t[0]], g, q);
    }
  }

  /** After `s.replaceAll(p, r)` with a `$`-free, non-empty `r` that shares no
      character with `q`: `q` is absent from the output when `q` is `p`, and
      stays absent when it was absent from `s`. */
  lemma NoOccurrenceAfter(s: string, p: string, r: string, q: string)
    requires |p| > 0 && |q| > 0 && r != [] && '$' !in r
    requires forall a :: 0 <= a < |r| ==> r[a] !in q
    requires q == p || !Occurs(q, s)
    ensures !Occurs(q, ReplaceAll(s, p, r))
  {
    ReplaceAllIsLiteral(s, p, r);
    NoOccurrenceInLiteral(s, p, r, q);
  }

  // ---------------------------------------------------------------------------
  // A reference definition: `s.split(p).join(r)`.
  // ---------------------------------------------------------------------------

  /** The pieces of `t` between the matches of `p`, found left to right. */
  function Split(t: string, p: string): (parts: seq<string>)
    requires |p| > 0
    ensures |parts| >= 1
    decreases |t|
  {
    if |t| < |p| then [t]
    else if t[..|p|] == p then [[]] + Split(t[|p|..], p)
    else
      var rest := Split(t[1..], p);
      [[t[0]] + rest[0]] + rest[1..]
  }

  /** One step of the split. */
  lemma SplitStep(t: string, p: string)
    requires |p| > 0
    ensures |t| < |p| ==> Split(t, p) == [t]
    ensures |t| >= |p| && t[..|p|] == p ==> Split(t, p) == [[]] + Split(t[|p|..], p)
    ensures |t| >= |p| && t[..|p|] != p ==>
      Split(t, p) == [[t[0]] + Split(t[1..], p)[0]] + Split(t[1..], p)[1..]
  {
  }

  /** `parts.join(sep)`. */
  function Join(parts: seq<string>, sep: string): (joined: string)
    requires |parts| >= 1
  {
    if |parts| == 1 then parts[0] else parts[0] + sep + Join(parts[1..], sep)
  }

  lemma JoinCons(x: string, parts: seq<string>, sep: string)
    requires |parts| >= 1
    ensures Join([x + parts[0]] + parts[1..], sep) == x + Join(parts, sep)
  {
    var ps := [x + parts[0]] + parts[1..];
    assert ps[1..] == parts[1..];
  }

  /** The first piece is a prefix of the string. */
  lemma {:induction false} SplitFirstIsPrefix(t: string, p: string)
    requires |p| > 0
    ensures var x := Split(t, p)[0]; |x| <= |t| && t[..|x|] == x
    decreases |t|
  {
    if |t| >= |p| && t[..|p|] != p {
      var x := Split(t[1..], p)[0];
      SplitFirstIsPrefix(t[1..], p);
      assert t[..1 + |x|] == [t[0]] + t[1..][..|x|];
    }
  }

  /** Joining the pieces back with the pattern gives the original string. */
  lemma {:induction false} SplitJoin(t: string, p: string)
    requires |p| > 0
    ensures Join(Split(t, p), p) == t
    decreases |t|
  {
    if |t| < |p| {
      SplitStep(t, p);
    } else if t[..|p|] == p {
      SplitJoin(t[|p|..], p);
      SplitJoinMatchStep(t, p);
    } else {
      SplitJoin(t[1..], p);
      SplitJoinCopyStep(t, p);
    }
  }

  lemma SplitJoinMatchStep(t: string, p: string)
    requires |p| > 0 && |t| >= |p| && t[..|p|] == p
    requires Join(Split(t[|p|..], p), p) == t[|p|..]
    ensures Join(Split(t, p), p) == t
  {
    JoinOfSplitAtMatch(t, p);
    assert t == t[..|p|] + t[|p|..];
  }

  /** At a match, the split starts with an empty piece, so its join starts
      with the pattern. */
  lemma JoinOfSplitAtMatch(t: string, p: string)
    requires |p| > 0 && |t| >= |p| && t[..|p|] == p
    ensures Join(Split(t, p), p) == p + Join(Split(t[|p|..], p), p)
  {
    var rest := Split(t[|p|..], p);
    SplitStep(t, p);
    assert ([[]] + rest)[1..] == rest;
  }

  lemma SplitJoinCopyStep(t: string, p: string)
    requires |p| > 0 && |t| >= |p| && t[..|p|] != p
    requires Join(Split(t[1..], p), p) == t[1..]
    ensures Join(Split(t, p), p) == t
  {
    SplitStep(t, p);
    JoinCons([t[0]], Split(t[1..], p), p);
    assert t == [t[0]] + t[1..];
  }

  /** No piece of the split contains the pattern. */
  lemma {:induction false} SplitPiecesFree(t: string, p: string)
    requires |p| > 0
    ensures forall n :: 0 <= n < |Split(t, p)| ==> !Occurs(p, Split(t, p)[n])
    decreases |t|
  {
    var parts := Split(t, p);
    if |t| < |p| {
      forall k | 0 <= k <= |t| ensures !MatchAt(t, p, k) {
      }
    } else if t[..|p|] == p {
      SplitPiecesFree(t[|p|..], p);
      assert parts[1..] == Split(t[|p|..], p);
      forall k | 0 <= k <= 0 ensures !MatchAt(parts[0], p, k) {
      }
    } else {
      var rest := Split(t[1..], p);
      SplitPiecesFree(t[1..], p);
      SplitFirstIsPrefix(t[1..], p);
      assert parts[1..] == rest[1..];
      var x := [t[0]] + rest[0];
      assert x == t[..|x|];
      forall k | 0 <= k <= |x| ensures !MatchAt(x, p, k) {
        if k + |p| <= |x| {
          if k == 0 {
            assert x[..|p|] == t[..|p|];
          } else {
            assert rest[0][k - 1..k - 1 + |p|] == x[k..k + |p|];
            assert !MatchAt(rest[0], p, k - 1);
          }
        }
      }
    }
  }

  /** The literal scan is split-then-join. */
  lemma {:induction false} LiteralIsSplitJoin(t: string, p: string, r: string)
    requires |p| > 0
    ensures Literal(t, p, r) == Join(Split(t, p), r)
    decreases |t|
  {
    if |t| < |p| {
    } else if t[..|p|] == p {
      LiteralIsSplitJoin(t[|p|..], p, r);
    } else {
      LiteralIsSplitJoin(t[1..], p, r);
      JoinCons([t[0]], Split(t[1..], p), r);
    }
  }

  /** Every occurrence is replaced: `s` is its pieces joined by `p`, no piece
      holds `p`, and the output is the same pieces joined by `r`. */
  lemma ReplaceAllReplacesEveryOccurrence(s: string, p: string, r: string)
    requires |p| > 0 && '$' !in r
    ensures var parts := Split(s, p);
      && Join(parts, p) == s
      && (forall n :: 0 <= n < |parts| ==> !Occurs(p, parts[n]))
      && ReplaceAll(s, p, r) == Join(parts, r)
  {
    SplitJoin(s, p);
    SplitPiecesFree(s, p);
    ReplaceAllIsLiteral(s, p, r);
    LiteralIsSplitJoin(s, p, r);
  }

  // ---------------------------------------------------------------------------
  // Replacing piece by piece, for strings whose pieces cannot hide a match
  // across their borders.
  // ---------------------------------------------------------------------------

  /** No match of `p` at the start of `a + b` when `a` is shorter than `p` and
      one of the two characters beside the border is not in `p`. */
  lemma NoMatchAcrossBorder(a: string, b: string, p: string)
    requires a != [] && b != [] && (a[|a| - 1] !in p || b[0] !in p)
    requires |a| < |p| <= |a + b|
    ensures (a + b)[..|p|] != p
  {
    var w := (a + b)[..|p|];
    assert w[|a| - 1] == a[|a| - 1] && w[|a|] == b[0];
    assert p[|a| - 1] in p && p[|a|] in p;
  }

  /** Two strings whose border no match can cover are scanned one after the
      other. */
  lemma {:induction false} LiteralAppend(a: string, b: string, p: string, r: string)
    requires |p| > 0 && b != []
    requires a == [] || a[|a| - 1] !in p || b[0] !in p
    ensures Literal(a + b, p, r) == Literal(a, p, r) + Literal(b, p, r)
    decreases |a|
  {
    if a == [] {
      LiteralAppendEmpty(b, p, r);
    } else if |a| < |p| {
      LiteralAppendShort(a, b, p, r);
      LiteralStep(a, p, r);
    } else {
      if a[..|p|] == p {
        assert a[|p|..] == [] || a[|p|..][|a[|p|..]| - 1] == a[|a| - 1];
        LiteralAppend(a[|p|..], b, p, r);
        LiteralAppendMatchStep(a, b, p, r);
      } else {
        assert a[1..] == [] || a[1..][|a[1..]| - 1] == a[|a| - 1];
        LiteralAppend(a[1..], b, p, r);
        LiteralAppendCopyStep(a, b, p, r);
      }
    }
  }

  lemma LiteralAppendEmpty(b: string, p: string, r: string)
    requires |p| > 0
    ensures Literal([] + b, p, r) == Literal([], p, r) + Literal(b, p, r)
  {
    assert [] + b == b;
    LiteralStep([], p, r);
  }

  lemma LiteralAppendMatchStep(a: string, b: string, p: string, r: string)
    requires |p| > 0 && |a| >= |p| && a[..|p|] == p
    requires Literal(a[|p|..] + b, p, r) == Literal(a[|p|..], p, r) + Literal(b, p, r)
    ensures Literal(a + b, p, r) == Literal(a, p, r) + Literal(b, p, r)
  {
    var s := a + b;
    assert s[..|p|] == a[..|p|] && s[|p|..] == a[|p|..] + b;
    LiteralStep(s, p, r);
    LiteralStep(a, p, r);
  }

  lemma LiteralAppendCopyStep(a: string, b: string, p: string, r: string)
    requires |p| > 0 && |a| >= |p| && a[..|p|] != p
    requires Literal(a[1..] + b, p, r) == Literal(a[1..], p, r) + Literal(b, p, r)
    ensures Literal(a + b, p, r) == Literal(a, p, r) + Literal(b, p, r)
  {
    var s := a + b;
    assert s[..|p|] == a[..|p|] && s[1..] == a[1..] + b && s[0] == a[0];
    LiteralStep(s, p, r);
    LiteralStep(a, p, r);
  }

  /** `LiteralAppend` for an `a` shorter than the pattern, which is copied. */
  lemma {:induction false} LiteralAppendShort(a: string, b: string, p: string, r: string)
    requires |p| > 0 && b != [] && |a| < |p|
    requires a == [] || a[|a| - 1] !in p || b[0] !in p
    ensures Literal(a + b, p, r) == a + Literal(b, p, r)
    decreases |a|
  {
    if a == [] {
      assert a + b == b;
    } else if |a + b| < |p| {
      LiteralStep(a + b, p, r);
      LiteralStep(b, p, r);
    } else {
      var rest := a[1..];
      assert rest == [] || rest[|rest| - 1] == a[|a| - 1];
      LiteralAppendShort(rest, b, p, r);
      LiteralAppendShortStep(a, b, p, r);
    }
  }

  lemma LiteralAppendShortStep(a: string, b: string, p: string, r: string)
    requires a != [] && b != [] && |a| < |p| <= |a + b|
    requires a[|a| - 1] !in p || b[0] !in p
    requires Literal(a[1..] + b, p, r) == a[1..] + Literal(b, p, r)
    ensures Literal(a + b, p, r) == a + Literal(b, p, r)
  {
    NoMatchAcrossBorder(a, b, p);
    LiteralStep(a + b, p, r);
    assert (a + b)[1..] == a[1..] + b && (a + b)[0] == a[0];
    assert a == [a[0]] + a[1..];
  }

  /** Two strings whose border no match can cover are replaced one after the
      other. */
  lemma ReplaceAllAppend(a: string, b: string, p: string, r: string)
    requires |p| > 0 && '$' !in r
    requires a == [] || b == [] || a[|a| - 1] !in p || b[0] !in p
    ensures ReplaceAll(a + b, p, r) == ReplaceAll(a, p, r) + ReplaceAll(b, p, r)
  {
    if b == [] {
      assert a + b == a;
    } else {
      LiteralAppend(a, b, p, r);
    }
    ReplaceAllIsLiteral(a + b, p, r);
    ReplaceAllIsLiteral(a, p, r);
    ReplaceAllIsLiteral(b, p, r);
  }

  /** A piece that is the pattern becomes the replacement; a piece that cannot
      hold the pattern stays as it is. */
  lemma ReplaceAllOfPiece(piece: string, p: string, r: string)
    requires |p| > 0
    ensures piece == p && '$' !in r ==> ReplaceAll(piece, p, r) == r
    ensures (|piece| <= |p| && piece != p) || p[0] !in piece ==> ReplaceAll(piece, p, r) == piece
  {
    if piece == p && '$' !in r {
      ReplaceAllIsLiteral(piece, p, r);
      assert piece[..|p|] == p && piece[|p|..] == [];
    } else if (|piece| <= |p| && piece != p) || p[0] !in piece {
      forall k | 0 <= k <= |piece| ensures !MatchAt(piece, p, k) {
        if k + |p| <= |piece| {
          if |piece| <= |p| {
            assert piece[k..k + |p|] == piece;
          } else {
            assert piece[k..k + |p|][0] == piece[k];
          }
        }
      }
      NoMatchUnchanged(piece, p, r);
    }
  }

  /** Inserted text is not scanned again by the same call: replacing the
      pattern by two copies of itself gives two copies, although the output
      still holds the pattern. */
  lemma ReplacementNotRescanned(p: string)
    requires |p| > 0 && '$' !in p
    ensures ReplaceAll(p, p, p + p) == p + p
    ensures Occurs(p, ReplaceAll(p, p, p + p))
  {
    ReplaceAllOfPiece(p, p, p + p);
    assert MatchAt(p + p, p, 0);
  }

  /** A character that is not in the pattern splits the replacement in two:
      no match can reach across it. */
  lemma ReplaceAllAroundSeparator(a: string, c: char, b: string, p: string, r: string)
    requires |p| > 0 && '$' !in r && c !in p
    ensures ReplaceAll(a + [c] + b, p, r) == ReplaceAll(a, p, r) + [c] + ReplaceAll(b, p, r)
  {
    ReplaceAllOfPiece([c], p, r);
    ReplaceAllAppend(a, [c], p, r);
    ReplaceAllAppend(a + [c], b, p, r);
  }

  /** `$&` in a string replacement inserts the match. */
  lemma DollarAmpersandInsertsMatch()
    ensures ReplaceAll("<x>", "x", "$&$&") == "<xx>"
  {
    var p, r := "x", "$&$&";
    assert Substitution(r, p, "<", ">") == "xx" by {
      assert Substitution(r[2..], p, "<", ">") == "x";
    }
    assert Scan("<x", ">", p, r) == ">";
    assert Scan("<", "x>", p, r) == "xx>";
    assert "<x>"[..1] != p && [] + ['<'] == "<" && "<x>"[1..] == "x>";
    assert Scan([], "<x>", p, r) == "<xx>";
  }

  /** `` $` `` inserts the text before the match. */
  lemma DollarBacktickInsertsPrefix()
    ensures ReplaceAll("ax", "x", "$`") == "aa"
  {
    var p, r := "x", "$`";
    assert Substitution(r, p, "a", "") == "a";
    assert Scan("a", "x", p, r) == "a";
    assert "ax"[..1] != p && [] + ['a'] == "a" && "ax"[1..] == "x";
    assert Scan([], "ax", p, r) == "aa";
  }

  /** `$'` inserts the text after the match. */
  lemma DollarQuoteInsertsSuffix()
    ensures ReplaceAll("xb", "x", "$'") == "bb"
  {
    var p, r := "x", "$'";
    assert Substitution(r, p, [], "b") == "b";
    assert Scan("x", "b", p, r) == "b";
    assert Scan([], "xb", p, r) == "bb";
  }

  /** `$$` inserts one `$`, and `$1` (no capture groups) stands for itself. */
  lemma DollarDollarIsDollar()
    ensures ReplaceAll("<x>", "x", "$$1") == "<$1>"
  {
    var p, r := "x", "$$1";
    assert Substitution(r, p, "<", ">") == "$1" by {
      assert Substitution(r[2..], p, "<", ">") == "1";
    }
    assert Scan("<x", ">", p, r) == ">";
    assert Scan("<", "x>", p, r) == "$1>";
    assert "<x>"[..1] != p && [] + ['<'] == "<" && "<x>"[1..] == "x>";
    assert Scan([], "<x>", p, r) == "<$1>";
  }
}
