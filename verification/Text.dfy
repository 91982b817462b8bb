/**
 * The string helpers of Go's `strings` package that the daemon relies on:
 * trimming white space, splitting on one character and joining again.
 */
module Text {

  const NL := '\n'

  // unicode.IsSpace, which strings.TrimSpace uses.
  predicate IsSpace(c: char) {
    || c in {'\t', '\n', '\U{000B}', '\U{000C}', '\r', ' ', '\U{0085}', '\U{00A0}', '\U{1680}'}
    || '\U{2000}' <= c <= '\U{200A}'
    || c in {'\U{2028}', '\U{2029}', '\U{202F}', '\U{205F}', '\U{3000}'}
  }

  lemma SpaceCodes(c: char)
    ensures var n := c as int;
            IsSpace(c) <==> 9 <= n <= 13 || n in {32, 0x85, 0xA0, 0x1680, 0x2028, 0x2029, 0x202F, 0x205F, 0x3000}
                            || 0x2000 <= n <= 0x200A
  {
  }

  predicate AllSpace(s: string) {
    forall i | 0 <= i < |s| :: IsSpace(s[i])
  }

  function TrimLeft(s: string): string {
    if s != "" && IsSpace(s[0]) then TrimLeft(s[1..]) else s
  }

  function TrimRight(s: string): string {
    if s != "" && IsSpace(s[|s| - 1]) then TrimRight(s[..|s| - 1]) else s
  }

  function Trim(s: string): string {
    TrimRight(TrimLeft(s))
  }

  predicate Blank(s: string) {
    Trim(s) == ""
  }

  // Text that a trim leaves alone.
  predicate Trimmed(s: string) {
    s == "" || (!IsSpace(s[0]) && !IsSpace(s[|s| - 1]))
  }

  lemma {:induction false} TrimLeftParts(s: string) returns (pre: string)
    ensures AllSpace(pre) && s == pre + TrimLeft(s)
    ensures TrimLeft(s) == "" || !IsSpace(TrimLeft(s)[0])
  {
    if s != "" && IsSpace(s[0]) {
      var rest := TrimLeftParts(s[1..]);
      pre := [s[0]] + rest;
      assert s == [s[0]] + s[1..];
    } else {
      pre := "";
    }
  }

  lemma {:induction false} TrimRightParts(s: string) returns (post: string)
    ensures AllSpace(post) && s == TrimRight(s) + post
    ensures TrimRight(s) == "" || !IsSpace(TrimRight(s)[|TrimRight(s)| - 1])
  {
    if s != "" && IsSpace(s[|s| - 1]) {
      var rest := TrimRightParts(s[..|s| - 1]);
      post := rest + [s[|s| - 1]];
      assert s == s[..|s| - 1] + [s[|s| - 1]];
    } else {
      post := "";
    }
  }

  /** Trimming cuts white space off both ends and nothing else. */
  lemma TrimParts(s: string) returns (pre: string, post: string)
    ensures AllSpace(pre) && AllSpace(post)
    ensures s == pre + Trim(s) + post
    ensures Trimmed(Trim(s))
  {
    pre := TrimLeftParts(s);
    var left := TrimLeft(s);
    post := TrimRightParts(left);
    if Trim(s) != "" {
      assert Trim(s)[0] == left[0];
    }
  }

  lemma TrimmedIsFixed(s: string)
    requires Trimmed(s)
    ensures Trim(s) == s
  {
  }

  // A trimmed text is blank only when nothing is left of it.
  lemma TrimmedName(s: string)
    ensures Blank(Trim(s)) <==> Trim(s) == ""
  {
    var _, _ := TrimParts(s);
    TrimmedIsFixed(Trim(s));
  }

  // strings.Split for a one-character separator.
  function Split(s: string, sep: char): (parts: seq<string>)
    ensures |parts| >= 1
    ensures forall p | p in parts :: sep !in p
  {
    if s == "" then [""]
    else
      var rest := Split(s[1..], sep);
      if s[0] == sep then [""] + rest
      else [[s[0]] + rest[0]] + rest[1..]
  }

  // strings.Join.
  function Join(parts: seq<string>, sep: string): string {
    if parts == [] then ""
    else if |parts| == 1 then parts[0]
    else parts[0] + sep + Join(parts[1..], sep)
  }

  lemma {:induction false} SplitWhole(s: string, sep: char)
    requires sep !in s
    ensures Split(s, sep) == [s]
  {
    if s != "" {
      assert forall c | c in s[1..] :: c in s;
      SplitWhole(s[1..], sep);
      assert [s[0]] + s[1..] == s;
    }
  }

  /** Splitting at the first separator. */
  lemma {:induction false} SplitCons(first: string, rest: string, sep: char)
    requires sep !in first
    ensures Split(first + [sep] + rest, sep) == [first] + Split(rest, sep)
  {
    var s := first + [sep] + rest;
    if first == "" {
      assert s[1..] == rest;
    } else {
      assert forall c | c in first[1..] :: c in first;
      SplitCons(first[1..], rest, sep);
      assert s[1..] == first[1..] + [sep] + rest;
      assert [first[0]] + first[1..] == first;
    }
  }

  /** Splitting at the last separator. */
  lemma {:induction false} SplitSnoc(front: string, last: string, sep: char)
    requires sep !in last
    ensures Split(front + [sep] + last, sep) == Split(front, sep) + [last]
  {
    var s := front + [sep] + last;
    if front == "" {
      assert s[1..] == last;
      SplitWhole(last, sep);
    } else {
      SplitSnoc(front[1..], last, sep);
      assert s[1..] == front[1..] + [sep] + last;
    }
  }

  // What one more character in front does to the parts.
  function Prepend(c: char, parts: seq<string>, sep: char): (r: seq<string>)
    requires parts != []
    ensures r != []
  {
    if c == sep then [""] + parts else [[c] + parts[0]] + parts[1..]
  }

  lemma SplitStep(c: char, s: string, sep: char)
    ensures Split([c] + s, sep) == Prepend(c, Split(s, sep), sep)
  {
    assert ([c] + s)[1..] == s;
  }

  lemma PrependAppend(c: char, a: seq<string>, b: seq<string>, sep: char)
    requires a != []
    ensures Prepend(c, a + b, sep) == Prepend(c, a, sep) + b
  {
    assert (a + b)[1..] == a[1..] + b;
  }

  /** Splitting around any separator. */
  lemma {:induction false} SplitConcat(a: string, b: string, sep: char)
    ensures Split(a + [sep] + b, sep) == Split(a, sep) + Split(b, sep)
  {
    hide Split, Prepend;
    if a == "" {
      SplitEmpty(sep);
      SplitCons("", b, sep);
    } else {
      var c, rest := a[0], a[1..];
      SplitConcat(rest, b, sep);
      assert a == [c] + rest;
      assert a + [sep] + b == [c] + (rest + [sep] + b);
      SplitStep(c, rest, sep);
      SplitStep(c, rest + [sep] + b, sep);
      PrependAppend(c, Split(rest, sep), Split(b, sep), sep);
    }
  }

  lemma SplitEmpty(sep: char)
    ensures Split("", sep) == [""]
  {
  }

  /** Text without a separator in front stays with the first part. */
  lemma {:induction false} SplitBehind(p: string, s: string, sep: char)
    requires sep !in p
    ensures Split(p + s, sep) == [p + Split(s, sep)[0]] + Split(s, sep)[1..]
  {
    hide Split;
    var f := Split(s, sep);
    if p == "" {
      assert p + s == s && p + f[0] == f[0];
      assert f == [f[0]] + f[1..];
    } else {
      var c, q := p[0], p[1..];
      assert c in p && forall x | x in q :: x in p;
      SplitBehind(q, s, sep);
      assert p + s == [c] + (q + s);
      SplitStep(c, q + s, sep);
      assert ([q + f[0]] + f[1..])[1..] == f[1..];
      assert [c] + (q + f[0]) == p + f[0];
    }
  }

  /** Text without a separator at the end stays with the last part. */
  lemma {:induction false} SplitBefore(s: string, p: string, sep: char)
    requires sep !in p
    ensures var f := Split(s, sep); Split(s + p, sep) == f[..|f| - 1] + [f[|f| - 1] + p]
  {
    hide Split, Prepend;
    if s == "" {
      assert s + p == p;
      SplitWhole(p, sep);
      SplitEmpty(sep);
    } else {
      var c, rest := s[0], s[1..];
      SplitBefore(rest, p, sep);
      assert s == [c] + rest && s + p == [c] + (rest + p);
      SplitStep(c, rest, sep);
      SplitStep(c, rest + p, sep);
      PrependLast(c, Split(rest, sep), p, sep);
    }
  }

  lemma PrependLast(c: char, f: seq<string>, p: string, sep: char)
    requires f != []
    ensures var g := Prepend(c, f, sep);
            Prepend(c, f[..|f| - 1] + [f[|f| - 1] + p], sep) == g[..|g| - 1] + [g[|g| - 1] + p]
  {
    var last := f[|f| - 1] + p;
    if c == sep {
      assert ([""] + f)[..|f|] == [""] + f[..|f| - 1];
    } else if |f| == 1 {
      assert f[..0] + [last] == [last];
      assert [c] + last == [c] + f[0] + p;
    } else {
      var g := [[c] + f[0]] + f[1..];
      assert (f[..|f| - 1] + [last])[1..] == f[1..|f| - 1] + [last];
      assert g[..|g| - 1] == [[c] + f[0]] + f[1..|f| - 1];
    }
  }

  lemma {:induction false} SplitJoin(parts: seq<string>, sep: char)
    requires parts != []
    requires forall p | p in parts :: sep !in p
    ensures Split(Join(parts, [sep]), sep) == parts
  {
    if |parts| == 1 {
      SplitWhole(parts[0], sep);
      assert parts == [parts[0]];
    } else {
      var rest := Join(parts[1..], [sep]);
      assert Join(parts, [sep]) == parts[0] + [sep] + rest;
      hide Split, Join;
      assert forall p | p in parts[1..] :: p in parts;
      assert parts[0] in parts;
      SplitJoin(parts[1..], sep);
      SplitCons(parts[0], rest, sep);
      assert parts == [parts[0]] + parts[1..];
    }
  }

  lemma {:induction false} JoinSplit(s: string, sep: char)
    ensures Join(Split(s, sep), [sep]) == s
  {
    if s != "" {
      JoinSplit(s[1..], sep);
      var rest := Split(s[1..], sep);
      if s[0] == sep {
        assert ([""] + rest)[1..] == rest;
      } else {
        var parts := [[s[0]] + rest[0]] + rest[1..];
        assert parts[1..] == rest[1..];
      }
    }
  }

  lemma {:induction false} JoinSnoc(parts: seq<string>, last: string, sep: string)
    requires parts != []
    ensures Join(parts + [last], sep) == Join(parts, sep) + sep + last
  {
    if |parts| > 1 {
      JoinSnoc(parts[1..], last, sep);
      assert (parts + [last])[1..] == parts[1..] + [last];
    } else {
      assert (parts + [last])[1..] == [last];
    }
  }

  lemma {:induction false} SplitWithout(s: string, sep: char, c: char)
    requires c !in s
    ensures forall p | p in Split(s, sep) :: c !in p
  {
    if s != "" {
      assert s[0] in s && forall x | x in s[1..] :: x in s;
      SplitWithout(s[1..], sep, c);
      var rest := Split(s[1..], sep);
      assert rest[0] in rest && forall p | p in rest[1..] :: p in rest;
    }
  }

  lemma {:induction false} JoinWithout(parts: seq<string>, sep: string, c: char)
    requires c !in sep && forall p | p in parts :: c !in p
    ensures c !in Join(parts, sep)
  {
    if parts != [] {
      assert parts[0] in parts && forall p | p in parts[1..] :: p in parts;
      JoinWithout(parts[1..], sep, c);
    }
  }
}
