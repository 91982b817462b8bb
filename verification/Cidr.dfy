/** The address pool: turning "10.10.10.0/24" into a network and a dotted netmask. */
module Cidr {
  import opened Wrappers
  import opened Ipv4
  import Numerals
  import Text

  datatype Block = Block(addr: Quad, ones: nat)

  datatype Split = Split(network: string, netmask: string)

  // net.ParseCIDR, restricted to IPv4: an IPv6 block parses in Go but splitCIDR then rejects its mask.
  function ParseCidr(s: string): (b: Option<Block>)
    ensures b.Some? ==> b.value.ones <= 32
  {
    var f := Text.Split(s, '/');
    if |f| != 2 then None
    else
      match (ParseQuad(f[0]), Numerals.Read(f[1], Numerals.Ten))
      case (Some(q), Some(n)) => if n <= 32 then Some(Block(q, n)) else None
      case _ => None
  }

  function SplitCidr(s: string): Option<Split> {
    match ParseCidr(s)
    case None => None
    case Some(b) => Some(Split(ShowQuad(AndQuad(b.addr, Mask(b.ones))), ShowQuad(Mask(b.ones))))
  }

  // ------------------------------------------------ what a block means

  function BlockSize(b: Block): nat
    requires b.ones <= 32
  {
    Pow2(32 - b.ones)
  }

  function First(b: Block): nat
    requires b.ones <= 32
  {
    RoundDown(b.addr.Num(), BlockSize(b))
  }

  // Section 3.1 of RFC 4632: the 2^(32-n) consecutive addresses that share the first n bits.
  predicate InBlock(x: Addr, b: Block)
    requires b.ones <= 32
  {
    First(b) <= x < First(b) + BlockSize(b)
  }

  lemma {:induction false} Pow2Injective(i: nat, j: nat)
    requires Pow2(i) == Pow2(j)
    ensures i == j
  {
    if i > 0 && j > 0 {
      Pow2Injective(i - 1, j - 1);
    }
  }

  lemma BlockInside(x: nat, size: nat, k: nat)
    requires size > 0 && x < k * size
    ensures RoundDown(x, size) + size <= k * size
  {
    var q := x / size;
    assert RoundDown(x, size) == q * size;
    assert q < k by {
      if q >= k {
        AtLeast(q, k, size);
      }
    }
    AtLeast(k, q + 1, size);
  }

  lemma AtLeast(a: nat, b: nat, size: nat)
    requires a >= b
    ensures a * size >= b * size
  {
  }

  lemma FitsSpace(b: Block)
    requires b.ones <= 32
    ensures First(b) + BlockSize(b) <= SPACE
  {
    hide Quad.Num;
    Pow2Of32();
    Pow2Add(b.ones, 32 - b.ones);
    BlockInside(b.addr.Num(), BlockSize(b), Pow2(b.ones));
  }

  lemma SameMultiple(q: nat, k: nat, size: nat, x: nat)
    requires q * size <= x < q * size + size
    ensures q == k <==> k * size <= x < k * size + size
  {
    if q < k {
      AtLeast(k, q + 1, size);
    } else if k < q {
      AtLeast(q, k + 1, size);
    }
  }

  lemma RoundDownMultiple(x: nat, size: nat) returns (q: nat)
    requires size > 0
    ensures RoundDown(x, size) == q * size && q * size <= x < q * size + size
  {
    q := x / size;
  }

  lemma SameRounding(x: nat, y: nat, size: nat)
    requires size > 0
    ensures RoundDown(x, size) == RoundDown(y, size) <==> RoundDown(y, size) <= x < RoundDown(y, size) + size
  {
    hide RoundDown;
    var q := RoundDownMultiple(x, size);
    var k := RoundDownMultiple(y, size);
    SameMultiple(q, k, size, x);
    if k < q {
      AtLeast(q, k + 1, size);
    } else if q < k {
      AtLeast(k, q + 1, size);
    }
  }

  lemma SameNum(p: Quad, q: Quad)
    requires p.Num() == q.Num()
    ensures p == q
  {
    hide *;
    QuadOfNum(p);
    QuadOfNum(q);
  }

  lemma MaskedIsNetwork(x: Addr, b: Block)
    requires b.ones <= 32
    ensures AndQuad(ToQuad(x), Mask(b.ones)) == AndQuad(b.addr, Mask(b.ones)) <==> InBlock(x, b)
  {
    hide Quad.Num, ToQuad, AndQuad, Mask, RoundDown;
    var masked, network := AndQuad(ToQuad(x), Mask(b.ones)), AndQuad(b.addr, Mask(b.ones));
    NetworkValue(ToQuad(x), b.ones);
    NetworkValue(b.addr, b.ones);
    SameRounding(x, b.addr.Num(), BlockSize(b));
    if masked.Num() == network.Num() {
      SameNum(masked, network);
    }
  }

  /**
   * The two strings written into the config denote the block: they parse back,
   * the mask is n ones then zeros, the network is the address rounded down to
   * the block, and masking tells exactly who is in the pool.
   */
  lemma SplitDenotesBlock(s: string, x: Addr, i: nat)
    requires SplitCidr(s).Some? && i < 32
    ensures ParseCidr(s).Some? && ParseQuad(SplitCidr(s).value.network).Some?
        && ParseQuad(SplitCidr(s).value.netmask).Some?
    ensures var b := ParseCidr(s).value;
            var network := ParseQuad(SplitCidr(s).value.network).value;
            var mask := ParseQuad(SplitCidr(s).value.netmask).value;
            && network.Num() == First(b)
            && (TopBit(mask.Num(), i) == 1 <==> i < b.ones)
            && (AndQuad(ToQuad(x), mask) == network <==> InBlock(x, b))
  {
    hide Quad.Num, AndQuad, Mask, RoundDown, ShowQuad, ParseQuad, ToQuad, TopBit, ParseCidr;
    var b := ParseCidr(s).value;
    QuadRoundTrip(AndQuad(b.addr, Mask(b.ones)));
    QuadRoundTrip(Mask(b.ones));
    NetworkValue(b.addr, b.ones);
    MaskLeadingOnes(b.ones, i);
    MaskedIsNetwork(x, b);
  }

  predicate SameMembers(b: Block, c: Block)
    requires b.ones <= 32 && c.ones <= 32
  {
    forall x: Addr :: InBlock(x, b) <==> InBlock(x, c)
  }

  lemma Ends(b: Block)
    requires b.ones <= 32
    ensures First(b) + BlockSize(b) <= SPACE && BlockSize(b) >= 1
    ensures InBlock(First(b), b) && InBlock(First(b) + BlockSize(b) - 1, b)
  {
    FitsSpace(b);
    hide First;
  }

  lemma SameMembersSameBounds(b: Block, c: Block)
    requires b.ones <= 32 && c.ones <= 32
    requires SameMembers(b, c)
    ensures First(b) == First(c) && b.ones == c.ones
  {
    hide *;
    Ends(b);
    Ends(c);
    BothHold(First(b), b, c);
    BothHold(First(c), b, c);
    BothHold(First(b) + BlockSize(b) - 1, b, c);
    BothHold(First(c) + BlockSize(c) - 1, b, c);
    assert BlockSize(b) == BlockSize(c);
    SameSize(b, c);
  }

  lemma BothHold(x: Addr, b: Block, c: Block)
    requires b.ones <= 32 && c.ones <= 32
    requires SameMembers(b, c) && (InBlock(x, b) || InBlock(x, c))
    ensures First(b) <= x < First(b) + BlockSize(b) && First(c) <= x < First(c) + BlockSize(c)
  {
    hide First, BlockSize;
  }

  lemma SameSize(b: Block, c: Block)
    requires b.ones <= 32 && c.ones <= 32 && BlockSize(b) == BlockSize(c)
    ensures b.ones == c.ones
  {
    Pow2Injective(32 - b.ones, 32 - c.ones);
  }

  lemma SameTextSameBlock(b: Block, c: Block)
    requires b.ones <= 32 && c.ones <= 32
    requires ShowQuad(AndQuad(b.addr, Mask(b.ones))) == ShowQuad(AndQuad(c.addr, Mask(c.ones)))
    requires ShowQuad(Mask(b.ones)) == ShowQuad(Mask(c.ones))
    ensures First(b) == First(c) && b.ones == c.ones
  {
    hide Quad.Num, AndQuad, Mask, RoundDown, ShowQuad, ParseQuad;
    QuadRoundTrip(AndQuad(b.addr, Mask(b.ones)));
    QuadRoundTrip(AndQuad(c.addr, Mask(c.ones)));
    QuadRoundTrip(Mask(b.ones));
    QuadRoundTrip(Mask(c.ones));
    MaskValue(b.ones);
    MaskValue(c.ones);
    Pow2Injective(32 - b.ones, 32 - c.ones);
    NetworkValue(b.addr, b.ones);
    NetworkValue(c.addr, c.ones);
  }

  /** Two pool texts render to the same two lines exactly when they denote the same block. */
  lemma SameSplitIffSameBlock(s: string, t: string)
    requires ParseCidr(s).Some? && ParseCidr(t).Some?
    ensures SplitCidr(s) == SplitCidr(t) <==> SameMembers(ParseCidr(s).value, ParseCidr(t).value)
  {
    hide Quad.Num, AndQuad, Mask, RoundDown, ShowQuad, ParseCidr;
    var b, c := ParseCidr(s).value, ParseCidr(t).value;
    if SameMembers(b, c) {
      SameMembersSameBounds(b, c);
      NetworkValue(b.addr, b.ones);
      NetworkValue(c.addr, c.ones);
      SameNum(AndQuad(b.addr, Mask(b.ones)), AndQuad(c.addr, Mask(c.ones)));
    }
    if SplitCidr(s) == SplitCidr(t) {
      SameTextSameBlock(b, c);
    }
  }
}
