/** The comma substitution that makes occtl's ban lists valid JSON. */
module TrailingCommas {
  import opened Wrappers

  // \s in Go's regular expressions.
  predicate RegexSpace(c: char) {
    c in {' ', '\t', '\n', '\U{000C}', '\r'}
  }

  predicate Closer(c: char) {
    c == ']' || c == '}'
  }

  // ------------------------------------------------ the regular expression

  function LeadingWhite(s: string): (n: nat)
    ensures n <= |s|
    ensures forall i | 0 <= i < n :: RegexSpace(s[i])
    ensures n < |s| ==> !RegexSpace(s[n])
  {
    if s != "" && RegexSpace(s[0]) then 1 + LeadingWhite(s[1..]) else 0
  }

  // The length of a match of ,(\s*[\]}]) at the start of s.
  function MatchLength(s: string): (m: Option<nat>)
    ensures m.Some? ==> 2 <= m.value <= |s|
  {
    if s == "" || s[0] != ',' then None
    else
      var n := LeadingWhite(s[1..]);
      if 1 + n < |s| && Closer(s[1 + n]) then Some(n + 2) else None
  }

  // ReplaceAllString(s, "$1"): leftmost matches, not overlapping, each replaced by its group.
  function ReplaceAll(s: string): string
    decreases |s|
  {
    if s == "" then ""
    else
      match MatchLength(s)
      case Some(m) => s[1..m] + ReplaceAll(s[m..])
      case None => [s[0]] + ReplaceAll(s[1..])
  }

  // ------------------------------------------------ the per-position meaning

  // The next character that is not white space is a closing bracket or brace.
  predicate ClosesNext(s: string) {
    && s != ""
    && (s[0] in {']', '}'} || (s[0] in {' ', '\t', '\n', '\U{000C}', '\r'} && ClosesNext(s[1..])))
  }

  predicate IsTrailing(s: string, i: nat)
    requires i < |s|
  {
    s[i] == ',' && ClosesNext(s[i + 1..])
  }

  // Delete exactly the trailing commas.
  function Strip(s: string): string {
    if s == "" then ""
    else (if IsTrailing(s, 0) then [] else [s[0]]) + Strip(s[1..])
  }

  lemma {:induction false} ClosesNextByCount(s: string)
    ensures ClosesNext(s) <==> LeadingWhite(s) < |s| && Closer(s[LeadingWhite(s)])
  {
    if s != "" && RegexSpace(s[0]) {
      ClosesNextByCount(s[1..]);
    }
  }

  lemma {:induction false} StripWithoutCommas(p: string, r: string)
    requires ',' !in p
    ensures Strip(p + r) == p + Strip(r)
  {
    if p == "" {
      assert p + r == r;
    } else {
      assert (p + r)[1..] == p[1..] + r;
      assert forall c | c in p[1..] :: c in p;
      assert p[0] in p;
      StripWithoutCommas(p[1..], r);
      assert p == [p[0]] + p[1..];
    }
  }

  // A matched piece is white space and a closer: no comma but the first.
  lemma MatchedPiece(s: string, m: nat)
    requires MatchLength(s) == Some(m)
    ensures IsTrailing(s, 0) && ',' !in s[1..m]
  {
    ClosesNextByCount(s[1..]);
    assert s[0 + 1..] == s[1..];
    forall i | 0 <= i < m - 1 ensures s[1..m][i] != ',' {
      assert s[1..m][i] == s[1..][i];
    }
  }

  lemma Unmatched(s: string)
    requires s != "" && MatchLength(s).None?
    ensures !IsTrailing(s, 0)
  {
    ClosesNextByCount(s[1..]);
    assert s[0 + 1..] == s[1..];
  }

  /**
   * The one-pass replacement deletes exactly the commas whose next non-white
   * character closes, and keeps all else in order.
   */
  lemma {:induction false} ReplaceAllIsStrip(s: string)
    ensures ReplaceAll(s) == Strip(s)
    decreases |s|
  {
    hide MatchLength, IsTrailing;
    if s != "" {
      match MatchLength(s)
      case Some(m) =>
        MatchedPiece(s, m);
        ReplaceAllIsStrip(s[m..]);
        StripWithoutCommas(s[1..m], s[m..]);
        assert s[1..m] + s[m..] == s[1..];
      case None =>
        Unmatched(s);
        ReplaceAllIsStrip(s[1..]);
    }
  }

  // ------------------------------------------------ a second pass

  predicate NoTrailing(s: string) {
    s == "" || (!IsTrailing(s, 0) && NoTrailing(s[1..]))
  }

  lemma {:induction false} StripShorter(s: string)
    ensures |Strip(s)| <= |s|
    ensures Strip(s) == s <==> NoTrailing(s)
  {
    if s != "" {
      StripShorter(s[1..]);
      assert s == [s[0]] + s[1..];
      if !IsTrailing(s, 0) {
        assert Strip(s)[1..] == Strip(s[1..]);
      } else {
        assert |Strip(s)| < |s|;
      }
    }
  }

  // A comma, white space only, and then a comma that will be deleted.
  predicate DoubledAt(s: string, i: nat, j: nat) {
    i < j < |s| && s[i] == ',' && IsTrailing(s, j) && forall k | i < k < j :: RegexSpace(s[k])
  }

  predicate Doubled(s: string) {
    exists i: nat, j: nat | i < |s| && j < |s| :: DoubledAt(s, i, j)
  }

  // The next non-white character is a trailing comma.
  predicate TrailingNext(s: string) {
    s != "" && (IsTrailing(s, 0) || (RegexSpace(s[0]) && TrailingNext(s[1..])))
  }

  lemma {:induction false} ClosesAfterStrip(s: string)
    ensures ClosesNext(Strip(s)) <==> ClosesNext(s) || TrailingNext(s)
  {
    if s != "" {
      ClosesAfterStrip(s[1..]);
      assert s[0 + 1..] == s[1..];
      if IsTrailing(s, 0) {
        assert Strip(s) == Strip(s[1..]);
      } else {
        assert Strip(s)[1..] == Strip(s[1..]);
      }
    }
  }

  // A kept comma that the first pass turns into a trailing one.
  predicate Exposed(s: string) {
    s != "" && ((s[0] == ',' && TrailingNext(s[1..])) || Exposed(s[1..]))
  }

  lemma {:induction false} NotBoth(s: string)
    ensures !(ClosesNext(s) && TrailingNext(s))
  {
    if s != "" {
      NotBoth(s[1..]);
    }
  }

  lemma {:induction false} StripLeavesTrailing(s: string)
    ensures NoTrailing(Strip(s)) <==> !Exposed(s)
  {
    if s != "" {
      StripLeavesTrailing(s[1..]);
      ClosesAfterStrip(s[1..]);
      NotBoth(s[1..]);
      assert s[0 + 1..] == s[1..];
      if IsTrailing(s, 0) {
        assert Strip(s) == Strip(s[1..]);
      } else {
        assert Strip(s)[1..] == Strip(s[1..]);
        assert Strip(s)[0 + 1..] == Strip(s[1..]);
      }
    }
  }

  lemma {:induction false} TrailingNextAt(s: string)
    ensures TrailingNext(s) <==>
              exists j: nat | j < |s| :: IsTrailing(s, j) && forall k | 0 <= k < j :: RegexSpace(s[k])
  {
    if s != "" {
      TrailingNextAt(s[1..]);
      if RegexSpace(s[0]) && TrailingNext(s[1..]) {
        var j: nat :| j < |s[1..]| && IsTrailing(s[1..], j) && forall k | 0 <= k < j :: RegexSpace(s[1..][k]);
        assert s[1..][j + 1..] == s[j + 1 + 1..];
        assert IsTrailing(s, j + 1);
        forall k | 0 <= k < j + 1 ensures RegexSpace(s[k]) {
          if k > 0 {
            assert s[k] == s[1..][k - 1];
          }
        }
      }
      if j: nat :| j < |s| && IsTrailing(s, j) && forall k | 0 <= k < j :: RegexSpace(s[k]) {
        if j > 0 {
          assert s[1..][j - 1 + 1..] == s[j + 1..];
          assert IsTrailing(s[1..], j - 1);
          assert forall k | 0 <= k < j - 1 :: s[1..][k] == s[k + 1];
        }
      }
    }
  }

  lemma {:induction false} ExposedIsDoubled(s: string)
    ensures Exposed(s) <==> Doubled(s)
  {
    if s != "" {
      ExposedIsDoubled(s[1..]);
      TrailingNextAt(s[1..]);
      if Exposed(s) {
        ExposedGivesDoubled(s);
      }
      if i: nat, j: nat :| i < |s| && j < |s| && DoubledAt(s, i, j) {
        DoubledGivesExposed(s, i, j);
      }
    }
  }

  lemma ExposedGivesDoubled(s: string)
    requires Exposed(s) && (Exposed(s[1..]) ==> Doubled(s[1..]))
    ensures Doubled(s)
  {
    if s[0] == ',' && TrailingNext(s[1..]) {
      TrailingNextAt(s[1..]);
      var j: nat :| j < |s[1..]| && IsTrailing(s[1..], j) && forall k | 0 <= k < j :: RegexSpace(s[1..][k]);
      assert s[1..][j + 1..] == s[j + 1 + 1..];
      forall k | 0 < k < j + 1 ensures RegexSpace(s[k]) {
        assert s[k] == s[1..][k - 1];
      }
      assert DoubledAt(s, 0, j + 1);
    } else {
      var i: nat, j: nat :| i < |s[1..]| && j < |s[1..]| && DoubledAt(s[1..], i, j);
      assert s[1..][j + 1..] == s[j + 1 + 1..];
      forall k | i + 1 < k < j + 1 ensures RegexSpace(s[k]) {
        assert s[k] == s[1..][k - 1];
      }
      assert DoubledAt(s, i + 1, j + 1);
    }
  }

  lemma DoubledGivesExposed(s: string, i: nat, j: nat)
    requires s != "" && DoubledAt(s, i, j) && (Doubled(s[1..]) ==> Exposed(s[1..]))
    ensures Exposed(s)
  {
    assert s[1..][j - 1 + 1..] == s[j + 1..];
    assert IsTrailing(s[1..], j - 1);
    assert forall k | 0 <= k < |s| - 1 :: s[1..][k] == s[k + 1];
    if i == 0 {
      TrailingNextAt(s[1..]);
    } else {
      assert DoubledAt(s[1..], i - 1, j - 1);
    }
  }

  /**
   * Exactly when one pass is enough: no trailing comma is left, and a second
   * pass changes nothing, if and only if no deleted comma follows another comma
   * across white space alone.
   */
  lemma OnePassIsEnoughIff(s: string)
    ensures ReplaceAll(ReplaceAll(s)) == ReplaceAll(s) <==> !Doubled(s)
    ensures NoTrailing(ReplaceAll(s)) <==> !Doubled(s)
  {
    ReplaceAllIsStrip(s);
    ReplaceAllIsStrip(Strip(s));
    StripShorter(Strip(s));
    StripLeavesTrailing(s);
    ExposedIsDoubled(s);
  }
}
