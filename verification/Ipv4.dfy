/**
 * IPv4 literals and address blocks: the part of Go's `net` package that
 * `splitCIDR` and the address pins use. An address is its 32-bit value.
 */
module Ipv4 {
  import opened Wrappers
  import Numerals
  import Text

  const SPACE: nat := 0x1_0000_0000

  type Addr = n: nat | n < SPACE
  type Octet = n: nat | n < 256

  datatype Quad = Quad(a: Octet, b: Octet, c: Octet, d: Octet) {
    function Num(): Addr {
      ((a * 256 + b) * 256 + c) * 256 + d
    }
  }

  function ToQuad(n: Addr): (q: Quad)
    ensures q.Num() == n
  {
    var abc := n / 256;
    var ab := abc / 256;
    assert n == abc * 256 + n % 256 && abc == ab * 256 + abc % 256;
    Quad(ab / 256, ab % 256, abc % 256, n % 256)
  }

  lemma QuadOfNum(q: Quad)
    ensures ToQuad(q.Num()) == q
  {
    var ab := q.a * 256 + q.b;
    var abc := ab * 256 + q.c;
    LastOctet(ab, q.c);
    LastOctet(abc, q.d);
    LastOctet(q.a, q.b);
  }

  lemma LastOctet(n: nat, o: Octet)
    ensures (n * 256 + o) / 256 == n && (n * 256 + o) % 256 == o
  {
  }

  // ---------------------------------------------------------------- text

  function ParseOctet(s: string): Option<Octet> {
    match Numerals.Read(s, Numerals.Ten)
    case None => None
    case Some(n) => if n < 256 && (|s| == 1 || s[0] != '0') then Some(n) else None
  }

  // netip.ParseAddr restricted to the dotted form: four decimal fields, none with a leading zero.
  function ParseQuad(s: string): Option<Quad> {
    var f := Text.Split(s, '.');
    if |f| != 4 then None
    else
      match (ParseOctet(f[0]), ParseOctet(f[1]), ParseOctet(f[2]), ParseOctet(f[3]))
      case (Some(a), Some(b), Some(c), Some(d)) => Some(Quad(a, b, c, d))
      case _ => None
  }

  // net.IP.String for a four-byte address.
  function ShowQuad(q: Quad): string {
    Text.Join([ShowOctet(q.a), ShowOctet(q.b), ShowOctet(q.c), ShowOctet(q.d)], ".")
  }

  function ShowOctet(o: Octet): string {
    Numerals.Show(o, Numerals.Ten)
  }

  lemma QuadText(q: Quad)
    ensures ShowQuad(q)
         == ShowOctet(q.a) + ("." + (ShowOctet(q.b) + ("." + (ShowOctet(q.c) + ("." + ShowOctet(q.d))))))
  {
    hide ShowOctet;
    var a, b, c, d := ShowOctet(q.a), ShowOctet(q.b), ShowOctet(q.c), ShowOctet(q.d);
    assert [c, d][1..] == [d] && [b, c, d][1..] == [c, d] && [a, b, c, d][1..] == [b, c, d];
    assert Text.Join([d], ".") == d;
    assert Text.Join([c, d], ".") == c + ("." + d);
    assert Text.Join([b, c, d], ".") == b + ("." + Text.Join([c, d], "."));
  }

  lemma QuadTrimmed(q: Quad)
    ensures ShowQuad(q) != "" && Text.Trimmed(ShowQuad(q))
  {
    NumberEnds(q.a);
    NumberEnds(q.d);
    QuadText(q);
    hide Numerals.Show, Text.IsSpace, ShowQuad;
    var s := ShowQuad(q);
    var a, d := Numerals.Show(q.a, Numerals.Ten), Numerals.Show(q.d, Numerals.Ten);
    assert s[0] == a[0] && s[|s| - 1] == d[|d| - 1];
  }

  lemma NumberEnds(n: nat)
    ensures var s := Numerals.Show(n, Numerals.Ten); s != "" && !Text.IsSpace(s[0]) && !Text.IsSpace(s[|s| - 1])
  {
    var s := Numerals.Show(n, Numerals.Ten);
    assert Numerals.IsDigit(s[0], Numerals.Ten) && Numerals.IsDigit(s[|s| - 1], Numerals.Ten);
  }

  lemma ShowCanonical(n: nat)
    ensures Numerals.Canonical(Numerals.Show(n, Numerals.Ten))
    ensures Numerals.Show(n, Numerals.Ten)[0] == '0' ==> n == 0
  {
    if n >= 10 {
      ShowCanonical(n / 10);
    }
  }

  lemma OctetRoundTrip(o: Octet)
    ensures ParseOctet(ShowOctet(o)) == Some(o)
    ensures '.' !in ShowOctet(o)
  {
    Numerals.ReadOfShow(o, Numerals.Ten);
    ShowCanonical(o);
    var s := ShowOctet(o);
    forall i | 0 <= i < |s| ensures s[i] != '.' {
      assert Numerals.IsDigit(s[i], Numerals.Ten);
    }
  }

  lemma OctetCanonical(s: string)
    requires ParseOctet(s).Some?
    ensures ShowOctet(ParseOctet(s).value) == s
  {
    forall i | 0 <= i < |s| ensures !('A' <= s[i] <= 'F') {
      assert Numerals.IsDigit(s[i], Numerals.Ten);
    }
    Numerals.ShowOfValue(s, Numerals.Ten);
  }

  /** A printed address reads back as the same address. */
  lemma QuadRoundTrip(q: Quad)
    ensures ParseQuad(ShowQuad(q)) == Some(q)
  {
    OctetRoundTrip(q.a);
    OctetRoundTrip(q.b);
    OctetRoundTrip(q.c);
    OctetRoundTrip(q.d);
    Text.SplitJoin([ShowOctet(q.a), ShowOctet(q.b), ShowOctet(q.c), ShowOctet(q.d)], '.');
  }

  /** Only the canonical spelling of an address is accepted, so normalising it changes nothing. */
  lemma QuadCanonical(s: string)
    requires ParseQuad(s).Some?
    ensures ShowQuad(ParseQuad(s).value) == s
  {
    var f := Text.Split(s, '.');
    forall i | 0 <= i < 4 ensures ParseOctet(f[i]).Some? ==> ShowOctet(ParseOctet(f[i]).value) == f[i] {
      if ParseOctet(f[i]).Some? {
        OctetCanonical(f[i]);
      }
    }
    Text.JoinSplit(s, '.');
    assert f == [f[0], f[1], f[2], f[3]];
  }

  // ---------------------------------------------------------------- masks

  function Pow2(k: nat): (p: nat)
    ensures p > 0
  {
    if k == 0 then 1 else 2 * Pow2(k - 1)
  }

  // Bitwise AND of the low `bits` bits.
  function BitAnd(x: nat, y: nat, bits: nat): nat {
    if bits == 0 then 0
    else 2 * BitAnd(x / 2, y / 2, bits - 1) + (if x % 2 == 1 && y % 2 == 1 then 1 else 0)
  }

  lemma {:induction false} BitAndBound(x: nat, y: nat, bits: nat)
    ensures BitAnd(x, y, bits) < Pow2(bits)
  {
    if bits > 0 {
      BitAndBound(x / 2, y / 2, bits - 1);
    }
  }

  lemma Pow2Eight()
    ensures Pow2(8) == 256
  {
    assert Pow2(4) == 16;
  }

  function AndOctet(x: Octet, y: Octet): Octet {
    Pow2Eight();
    BitAndBound(x, y, 8);
    BitAnd(x, y, 8)
  }

  // net.IP.Mask: octet by octet.
  function AndQuad(x: Quad, m: Quad): Quad {
    Quad(AndOctet(x.a, m.a), AndOctet(x.b, m.b), AndOctet(x.c, m.c), AndOctet(x.d, m.d))
  }

  // One step of net.CIDRMask: 0xff while at least 8 ones are left, then a partial octet, then 0.
  function MaskOctet(ones: nat): Octet {
    if ones >= 8 then 255
    else
      assert Pow2(4) == 16 && Pow2(3) == 8 && Pow2(7) == 128;
      (!(0xFF as bv8 >> ones)) as nat
  }

  function Minus(n: nat, k: nat): nat {
    if n >= k then n - k else 0
  }

  // net.CIDRMask(ones, 32).
  function Mask(ones: nat): Quad {
    Quad(MaskOctet(ones), MaskOctet(Minus(ones, 8)), MaskOctet(Minus(ones, 16)), MaskOctet(Minus(ones, 24)))
  }

  lemma MaskOctetValue(k: nat)
    requires k <= 8
    ensures MaskOctet(k) == 256 - Pow2(8 - k)
  {
    assert Pow2(0) == 1 && Pow2(1) == 2 && Pow2(2) == 4 && Pow2(3) == 8 && Pow2(4) == 16;
    assert Pow2(5) == 32 && Pow2(6) == 64 && Pow2(7) == 128 && Pow2(8) == 256;
    if k == 0 {} else if k == 1 {} else if k == 2 {} else if k == 3 {}
    else if k == 4 {} else if k == 5 {} else if k == 6 {} else if k == 7 {} else {}
  }

  lemma {:induction false} Pow2Add(i: nat, j: nat)
    ensures Pow2(i + j) == Pow2(i) * Pow2(j)
  {
    if i > 0 {
      Pow2Add(i - 1, j);
      assert 2 * (Pow2(i - 1) * Pow2(j)) == Pow2(i) * Pow2(j);
    }
  }

  lemma {:induction false} Pow2Monotone(i: nat, j: nat)
    requires i <= j
    ensures Pow2(i) <= Pow2(j)
  {
    if i < j {
      Pow2Monotone(i, j - 1);
    }
  }

  lemma Pow2Bytes(k: nat)
    ensures Pow2(k + 8) == 256 * Pow2(k)
    ensures Pow2(k + 16) == 0x1_0000 * Pow2(k)
    ensures Pow2(k + 24) == 0x100_0000 * Pow2(k)
  {
    Pow2Eight();
    Pow2Add(8, k);
    Pow2Add(8, k + 8);
    Pow2Add(8, k + 16);
  }

  lemma Full()
    ensures forall ones: nat | ones >= 8 :: MaskOctet(ones) == 255
    ensures MaskOctet(0) == 0
  {
    MaskOctetValue(0);
    Pow2Eight();
  }

  // The octet in which the ones of a mask of length n end, 1 to 4, and the others.
  lemma MaskParts(n: nat)
    requires n <= 32
    ensures n <= 8 ==> Mask(n) == Quad(MaskOctet(n), 0, 0, 0)
    ensures 8 < n <= 16 ==> Mask(n) == Quad(255, MaskOctet(n - 8), 0, 0)
    ensures 16 < n <= 24 ==> Mask(n) == Quad(255, 255, MaskOctet(n - 16), 0)
    ensures 24 < n ==> Mask(n) == Quad(255, 255, 255, MaskOctet(n - 24))
  {
    hide MaskOctet;
    Full();
  }

  /** The mask of length n is 2^32 - 2^(32-n): n ones followed by zeros. */
  lemma MaskValue(n: nat)
    requires n <= 32
    ensures Mask(n).Num() == SPACE - Pow2(32 - n)
  {
    hide Mask, MaskOctet, Pow2;
    MaskParts(n);
    var k := if n <= 8 then n else if n <= 16 then n - 8 else if n <= 24 then n - 16 else n - 24;
    MaskOctetValue(k);
    Pow2Bytes(8 - k);
  }

  // Bit i of a 32-bit value, counted from the most significant end.
  function TopBit(x: nat, i: nat): nat
    requires i < 32
  {
    x / Pow2(31 - i) % 2
  }

  lemma DivMod(q: nat, r: nat, p: nat)
    requires r < p
    ensures (q * p + r) / p == q && (q * p + r) % p == r
  {
    var n := q * p + r;
    var q', r' := n / p, n % p;
    assert n == q' * p + r';
    if q' != q {
      Apart(q, r, q', r', p);
    }
  }

  lemma Apart(q: nat, r: nat, q': nat, r': nat, p: nat)
    requires r < p && r' < p && q != q'
    ensures q * p + r != q' * p + r'
  {
    if q < q' {
      assert (q + 1) * p <= q' * p;
    } else {
      assert (q' + 1) * p <= q * p;
    }
  }

  lemma OddQuotient(m: nat, p: nat, low: nat)
    requires m > 0 && 0 < low <= p
    ensures 2 * (m * p) >= low && (2 * (m * p) - low) / p % 2 == 1
  {
    assert 2 * (m * p) - low == (2 * m - 1) * p + (p - low);
    DivMod(2 * m - 1, p - low, p);
  }

  lemma EvenQuotient(m: nat, k: nat, p: nat)
    requires k <= m && p > 0
    ensures k * p <= m * p && (2 * (m * p) - 2 * (k * p)) / p % 2 == 0
  {
    assert 2 * (m * p) - 2 * (k * p) == (2 * (m - k)) * p;
    DivMod(2 * (m - k), 0, p);
  }

  lemma Pow2Of32()
    ensures Pow2(32) == SPACE
  {
    Pow2Bytes(0);
    Pow2Bytes(8);
  }

  lemma Pow2Double(i: nat, j: nat)
    ensures Pow2(i + 1 + j) == 2 * (Pow2(i) * Pow2(j))
  {
    Pow2Add(i, j);
  }

  lemma TopBitOfMask(n: nat, i: nat, mask: nat)
    requires n <= 32 && i < 32
    requires mask == Pow2(32) - Pow2(32 - n)
    ensures TopBit(mask, i) == 1 <==> i < n
  {
    if i < n {
      TopBitOne(n, i, mask);
    } else {
      TopBitZero(n, i, mask);
    }
  }

  lemma Pow2Positive(i: nat)
    ensures Pow2(i) > 0
  {
  }

  lemma TopBitOne(n: nat, i: nat, mask: nat)
    requires i < n <= 32
    requires mask == Pow2(32) - Pow2(32 - n)
    ensures mask / Pow2(31 - i) % 2 == 1
  {
    hide Pow2;
    var p, m, low := Pow2(31 - i), Pow2(i), Pow2(32 - n);
    Pow2Double(i, 31 - i);
    Pow2Monotone(32 - n, 31 - i);
    Pow2Positive(i);
    assert mask == 2 * (m * p) - low;
    OddQuotient(m, p, low);
  }

  lemma TopBitZero(n: nat, i: nat, mask: nat)
    requires n <= i < 32
    requires mask == Pow2(32) - Pow2(32 - n)
    ensures mask / Pow2(31 - i) % 2 == 0
  {
    hide Pow2;
    var p, m, k := Pow2(31 - i), Pow2(i), Pow2(i - n);
    Pow2Double(i, 31 - i);
    Pow2Double(i - n, 31 - i);
    Pow2Monotone(i - n, i);
    assert mask == 2 * (m * p) - 2 * (k * p);
    EvenQuotient(m, k, p);
  }

  /** The mask of length n has exactly n ones and they come first. */
  lemma MaskLeadingOnes(n: nat, i: nat)
    requires n <= 32 && i < 32
    ensures TopBit(Mask(n).Num(), i) == 1 <==> i < n
  {
    MaskValue(n);
    Pow2Of32();
    TopBitOfMask(n, i, Mask(n).Num());
  }

  // ---------------------------------------------------------------- networks

  lemma ModHalves(x: nat, p: nat)
    requires p > 0
    ensures x % (2 * p) == 2 * (x / 2 % p) + x % 2
  {
    var q, r := x / 2 / p, x / 2 % p;
    assert x / 2 == q * p + r;
    assert x == q * (2 * p) + (2 * r + x % 2);
    DivMod(q, 2 * r + x % 2, 2 * p);
  }

  lemma {:induction false} AndOnes(x: nat, bits: nat)
    requires x < Pow2(bits)
    ensures BitAnd(x, Pow2(bits) - 1, bits) == x
  {
    if bits > 0 {
      assert (Pow2(bits) - 1) / 2 == Pow2(bits - 1) - 1;
      AndOnes(x / 2, bits - 1);
    }
  }

  /** AND with a mask of leading ones rounds down to a multiple of 2^low. */
  lemma {:induction false} AndMask(x: nat, low: nat, bits: nat)
    requires low <= bits && x < Pow2(bits) && Pow2(low) <= Pow2(bits)
    ensures BitAnd(x, Pow2(bits) - Pow2(low), bits) == x - x % Pow2(low)
  {
    if low == 0 {
      AndOnes(x, bits);
    } else {
      assert (Pow2(bits) - Pow2(low)) / 2 == Pow2(bits - 1) - Pow2(low - 1);
      AndMask(x / 2, low - 1, bits - 1);
      ModHalves(x, Pow2(low - 1));
    }
  }

  // x * 2^lo, without a product of two variables.
  function Shift(x: nat, lo: nat): nat {
    if lo == 0 then x else 2 * Shift(x, lo - 1)
  }

  lemma ShiftOctet(x: nat)
    ensures Shift(x, 8) == 256 * x
  {
    assert Shift(x, 1) == 2 * x;
    assert Shift(x, 3) == 8 * x;
    assert Shift(x, 5) == 32 * x;
    assert Shift(x, 7) == 128 * x;
  }

  lemma AndStep(a: nat, b: nat, c: nat, d: nat, top: nat, n: nat, lo: nat)
    requires BitAnd(a + b / 2, c + d / 2, n) == top + BitAnd(b / 2, d / 2, lo)
    ensures BitAnd(2 * a + b, 2 * c + d, n + 1) == 2 * top + BitAnd(b, d, lo + 1)
  {
    assert (2 * a + b) / 2 == a + b / 2 && (2 * c + d) / 2 == c + d / 2;
  }

  /** AND works on each part of a split number. */
  lemma {:induction false} AndConcat(a: nat, b: nat, c: nat, d: nat, hi: nat, lo: nat)
    requires b < Pow2(lo) && d < Pow2(lo)
    ensures BitAnd(Shift(a, lo) + b, Shift(c, lo) + d, hi + lo) == Shift(BitAnd(a, c, hi), lo) + BitAnd(b, d, lo)
  {
    if lo == 0 {
      assert BitAnd(b, d, 0) == 0;
    } else {
      var m, top := lo - 1, BitAnd(a, c, hi);
      assert Shift(a, lo) == 2 * Shift(a, m) && Shift(c, lo) == 2 * Shift(c, m);
      assert Shift(top, lo) == 2 * Shift(top, m) && Pow2(lo) == 2 * Pow2(m);
      HalfBelow(b, Pow2(m));
      HalfBelow(d, Pow2(m));
      hide BitAnd, Shift, Pow2;
      AndConcat(a, b / 2, c, d / 2, hi, m);
      AndStep(Shift(a, m), b, Shift(c, m), d, Shift(top, m), hi + m, m);
    }
  }

  lemma HalfBelow(b: nat, p: nat)
    requires b < 2 * p
    ensures b / 2 < p
  {
  }

  lemma AndOctetsConcat(a: nat, b: Octet, c: nat, d: Octet, hi: nat)
    ensures BitAnd(a * 256 + b, c * 256 + d, hi + 8) == BitAnd(a, c, hi) * 256 + AndOctet(b, d)
  {
    hide BitAnd, Shift;
    Pow2Eight();
    AndConcat(a, b, c, d, hi, 8);
    ShiftOctet(a);
    ShiftOctet(c);
    ShiftOctet(BitAnd(a, c, hi));
  }

  lemma AndQuadValue(x: Quad, m: Quad)
    ensures AndQuad(x, m).Num() == BitAnd(x.Num(), m.Num(), 32)
  {
    hide BitAnd;
    AndOctetsConcat(x.a, x.b, m.a, m.b, 8);
    AndOctetsConcat(x.a * 256 + x.b, x.c, m.a * 256 + m.b, m.c, 16);
    AndOctetsConcat((x.a * 256 + x.b) * 256 + x.c, x.d, (m.a * 256 + m.b) * 256 + m.c, m.d, 24);
  }

  function RoundDown(x: nat, size: nat): (r: nat)
    requires size > 0
    ensures r <= x
  {
    x - x % size
  }

  /** Masking rounds the address down to a multiple of the block size 2^(32-n). */
  lemma NetworkValue(x: Quad, n: nat)
    requires n <= 32
    ensures AndQuad(x, Mask(n)).Num() == RoundDown(x.Num(), Pow2(32 - n))
  {
    MaskValue(n);
    AndQuadValue(x, Mask(n));
    Pow2Of32();
    Pow2Monotone(32 - n, 32);
    AndMask(x.Num(), 32 - n, 32);
  }
}
