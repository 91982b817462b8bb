/** Go's string order and the strictly increasing sequences `dedupSorted` produces. */
module Ordering {

  // Lexicographic by code point, which for valid UTF-8 is Go's byte order.
  predicate Less(a: string, b: string) {
    b != "" && (a == "" || a[0] < b[0] || (a[0] == b[0] && Less(a[1..], b[1..])))
  }

  lemma {:induction false} LessTotal(a: string, b: string)
    ensures Less(a, b) || a == b || Less(b, a)
  {
    if a != "" && b != "" && a[0] == b[0] {
      LessTotal(a[1..], b[1..]);
      assert a == [a[0]] + a[1..] && b == [b[0]] + b[1..];
    }
  }

  lemma {:induction false} LessAntisymmetric(a: string, b: string)
    requires Less(a, b)
    ensures !Less(b, a) && a != b
  {
    if a != "" && a[0] == b[0] {
      LessAntisymmetric(a[1..], b[1..]);
    }
  }

  lemma {:induction false} LessTransitive(a: string, b: string, c: string)
    requires Less(a, b) && Less(b, c)
    ensures Less(a, c)
  {
    if a != "" && a[0] == b[0] == c[0] {
      LessTransitive(a[1..], b[1..], c[1..]);
    }
  }

  // a and b agree on k characters; there a ends, or has the smaller character.
  predicate PartsAt(a: string, b: string, k: nat) {
    k <= |a| && k < |b| && a[..k] == b[..k] && (k == |a| || a[k] as int < b[k] as int)
  }

  /** The order compares the first characters in which two texts differ; a proper prefix comes first. */
  lemma {:induction false} LessIff(a: string, b: string)
    ensures Less(a, b) <==> exists k: nat :: PartsAt(a, b, k)
  {
    if b != "" && (a == "" || a[0] < b[0]) {
      assert PartsAt(a, b, 0);
    } else if b != "" && a[0] == b[0] {
      LessIff(a[1..], b[1..]);
      if k: nat :| PartsAt(a[1..], b[1..], k) {
        assert a[..k + 1] == [a[0]] + a[1..][..k] && b[..k + 1] == [b[0]] + b[1..][..k];
        assert PartsAt(a, b, k + 1);
      }
      if k: nat :| PartsAt(a, b, k) {
        assert k > 0;
        assert a[1..][..k - 1] == a[..k][1..] && b[1..][..k - 1] == b[..k][1..];
        assert PartsAt(a[1..], b[1..], k - 1);
      }
    } else {
      forall k: nat ensures !PartsAt(a, b, k) {
        if 0 < k <= |a| && k < |b| {
          assert a[..k][0] == a[0] && b[..k][0] == b[0];
        }
      }
    }
  }

  predicate Increasing(s: seq<string>) {
    forall i, j | 0 <= i < j < |s| :: Less(s[i], s[j])
  }

  function Elements(s: seq<string>): set<string> {
    set x | x in s
  }

  lemma ElementsCons(x: string, s: seq<string>)
    ensures Elements([x] + s) == {x} + Elements(s)
  {
  }

  lemma NoElements(s: seq<string>)
    ensures Elements(s) == {} <==> s == []
  {
    if s != [] {
      assert s[0] in Elements(s);
    }
  }

  // One step of a sort that keeps the sequence strictly increasing.
  function Insert(x: string, s: seq<string>): (r: seq<string>)
    requires Increasing(s)
    ensures Increasing(r) && Elements(r) == {x} + Elements(s)
  {
    if s == [] then [x]
    else if s[0] == x then s
    else if Less(x, s[0]) then
      InsertFront(x, s);
      [x] + s
    else
      var rest := Insert(x, s[1..]);
      InsertAfter(x, s, rest);
      [s[0]] + rest
  }

  lemma InsertFront(x: string, s: seq<string>)
    requires s != [] && Increasing(s) && Less(x, s[0])
    ensures Increasing([x] + s)
  {
    forall j | 0 < j < |s| ensures Less(x, s[j]) {
      LessTransitive(x, s[0], s[j]);
    }
  }

  lemma InsertAfter(x: string, s: seq<string>, rest: seq<string>)
    requires s != [] && Increasing(s) && s[0] != x && !Less(x, s[0])
    requires Increasing(rest) && Elements(rest) == {x} + Elements(s[1..])
    ensures Increasing([s[0]] + rest)
    ensures Elements([s[0]] + rest) == {x} + Elements(s)
  {
    LessTotal(x, s[0]);
    forall j | 0 <= j < |rest| ensures Less(s[0], rest[j]) {
      assert rest[j] in Elements(rest);
      if rest[j] != x {
        assert rest[j] in s[1..];
      }
    }
    assert s == [s[0]] + s[1..];
    ElementsCons(s[0], rest);
    ElementsCons(s[0], s[1..]);
  }

  // The sorted sequence of distinct elements: what any correct dedup-and-sort returns.
  function Canonical(s: seq<string>): (r: seq<string>)
    ensures Increasing(r) && Elements(r) == Elements(s)
  {
    if s == [] then []
    else
      assert s == [s[0]] + s[1..];
      Insert(s[0], Canonical(s[1..]))
  }

  /** A strictly increasing sequence is determined by its element set. */
  lemma {:induction false} IncreasingUnique(s: seq<string>, t: seq<string>)
    requires Increasing(s) && Increasing(t) && Elements(s) == Elements(t)
    ensures s == t
  {
    NoElements(s);
    NoElements(t);
    if s != [] {
      FirstIsLeast(s, t);
      FirstIsLeast(t, s);
      RestElements(s);
      RestElements(t);
      IncreasingUnique(s[1..], t[1..]);
      assert s == [s[0]] + s[1..] && t == [t[0]] + t[1..];
    }
  }

  lemma FirstIsLeast(s: seq<string>, t: seq<string>)
    requires s != [] && t != [] && Increasing(s) && Increasing(t) && Elements(s) == Elements(t)
    ensures s[0] == t[0]
  {
    assert s[0] in Elements(t) && t[0] in Elements(s);
    if s[0] != t[0] {
      assert Less(t[0], s[0]) && Less(s[0], t[0]);
      LessAntisymmetric(s[0], t[0]);
    }
  }

  lemma RestElements(s: seq<string>)
    requires s != [] && Increasing(s)
    ensures Elements(s[1..]) == Elements(s) - {s[0]}
  {
    forall j | 0 < j < |s| ensures s[j] != s[0] {
      LessAntisymmetric(s[0], s[j]);
    }
    assert s == [s[0]] + s[1..];
  }

  /** Order and repetition of the input do not matter. */
  lemma CanonicalBySet(s: seq<string>, t: seq<string>)
    requires Elements(s) == Elements(t)
    ensures Canonical(s) == Canonical(t)
  {
    IncreasingUnique(Canonical(s), Canonical(t));
  }
}
