/** The reference meaning of the checksum: the bit-at-a-time reflected CRC-32 of section 8 of RFC 1952.

  A message is read as bits, least significant bit of each byte first.  Each bit is added to the low end of the
  register, which then moves one place to the right and, if a one fell out, has the polynomial added.
*/
module Crc32Spec {

  /** Addition of polynomials.  It has a name so that proofs can keep it folded. */
  function Xor(a: bv32, b: bv32): bv32 {
    a ^ b
  }

  function Not(a: bv32): bv32 {
    Xor(a, 0xFFFFFFFF)
  }

  /** One step of the register. */
  function Bit(c: bv32): bv32 {
    if c & 1 == 1 then 0xEDB88320 ^ (c >> 1) else c >> 1
  }

  /** The register after n steps with no input. */
  function Steps(c: bv32, n: nat): bv32 {
    if n == 0 then c else Bit(Steps(c, n - 1))
  }

  function BitWord(b: bool): bv32 {
    if b then 1 else 0
  }

  /** The register after the given message bits. */
  function Feed(c: bv32, bits: seq<bool>): bv32 {
    if |bits| == 0 then c else Bit(Xor(Feed(c, bits[..|bits| - 1]), BitWord(bits[|bits| - 1])))
  }

  /** The bits of a byte, least significant first. */
  function ByteBits(b: bv8): (bits: seq<bool>)
    ensures |bits| == 8
  {
    [b & 1 != 0, b & 2 != 0, b & 4 != 0, b & 8 != 0, b & 16 != 0, b & 32 != 0, b & 64 != 0, b & 128 != 0]
  }

  /** The bits of a message in transmission order. */
  function Bits(message: seq<bv8>): (bits: seq<bool>)
    ensures |bits| == 8 * |message|
  {
    if |message| == 0 then [] else Bits(message[..|message| - 1]) + ByteBits(message[|message| - 1])
  }

  /** The checksum of a message, continued from the checksum of whatever came before it (0 for nothing). */
  function Crc(previous: bv32, message: seq<bv8>): bv32 {
    Not(Feed(Not(previous), Bits(message)))
  }

  // -------------------------------------------------------------------------------------------------------------
  // Laws of Xor
  // -------------------------------------------------------------------------------------------------------------

  lemma XorCommutes(a: bv32, b: bv32)
    ensures Xor(a, b) == Xor(b, a)
  {
  }

  lemma XorAssociates(a: bv32, b: bv32, c: bv32)
    ensures Xor(Xor(a, b), c) == Xor(a, Xor(b, c))
  {
  }

  lemma XorUnit(a: bv32)
    ensures Xor(a, 0) == a && Xor(0, a) == a && Xor(a, a) == 0
  {
  }

  lemma XorLaws(a: bv32, b: bv32, c: bv32)
    ensures Xor(a, b) == Xor(b, a)
    ensures Xor(Xor(a, b), c) == Xor(a, Xor(b, c))
    ensures Xor(a, 0) == a && Xor(0, a) == a && Xor(a, a) == 0
    ensures Xor(Xor(a, b), b) == a
  {
    hide Xor;
    XorCommutes(a, b);
    XorAssociates(a, b, c);
    XorAssociates(a, b, b);
    XorUnit(a);
    XorUnit(b);
  }

  lemma NotNot(a: bv32)
    ensures Not(Not(a)) == a
  {
    hide Xor;
    XorLaws(a, 0xFFFFFFFF, 0);
  }

  // -------------------------------------------------------------------------------------------------------------
  // The step is linear and invertible
  // -------------------------------------------------------------------------------------------------------------

  lemma LowBit(c: bv32)
    ensures c & 1 == 0 || c & 1 == 1
  {
  }

  lemma HighBit(c: bv32)
    ensures c & 0x80000000 == 0 || c & 0x80000000 == 0x80000000
  {
  }

  lemma BitXorOnes(a: bv32, b: bv32)
    requires a & 1 == 1 && b & 1 == 1
    ensures Bit(Xor(a, b)) == Xor(Bit(a), Bit(b))
  {
  }

  lemma BitXorOne(a: bv32, b: bv32)
    requires a & 1 == 1 && b & 1 == 0
    ensures Bit(Xor(a, b)) == Xor(Bit(a), Bit(b))
  {
  }

  lemma BitXorZeros(a: bv32, b: bv32)
    requires a & 1 == 0 && b & 1 == 0
    ensures Bit(Xor(a, b)) == Xor(Bit(a), Bit(b))
  {
  }

  lemma BitXor(a: bv32, b: bv32)
    ensures Bit(Xor(a, b)) == Xor(Bit(a), Bit(b))
  {
    hide Bit, Xor;
    LowBit(a);
    LowBit(b);
    XorLaws(a, b, 0);
    XorLaws(Bit(a), Bit(b), 0);
    if a & 1 == 1 && b & 1 == 1 {
      BitXorOnes(a, b);
    } else if a & 1 == 1 {
      BitXorOne(a, b);
    } else if b & 1 == 1 {
      BitXorOne(b, a);
    } else {
      BitXorZeros(a, b);
    }
  }

  /** The step run backwards. */
  function Unbit(c: bv32): bv32 {
    if c & 0x80000000 == 0x80000000 then ((c ^ 0xEDB88320) << 1) | 1 else c << 1
  }

  lemma UnbitBit(c: bv32)
    ensures Unbit(Bit(c)) == c
  {
    LowBit(c);
  }

  lemma BitUnbitHigh(c: bv32)
    requires c & 0x80000000 == 0x80000000
    ensures Bit(Unbit(c)) == c
  {
  }

  lemma BitUnbitLow(c: bv32)
    requires c & 0x80000000 == 0
    ensures Bit(Unbit(c)) == c
  {
  }

  lemma BitUnbit(c: bv32)
    ensures Bit(Unbit(c)) == c
  {
    HighBit(c);
    if c & 0x80000000 == 0 { BitUnbitLow(c); } else { BitUnbitHigh(c); }
  }

  lemma {:induction false} StepsXor(a: bv32, b: bv32, n: nat)
    ensures Steps(Xor(a, b), n) == Xor(Steps(a, n), Steps(b, n))
  {
    hide Xor, Bit;
    if n > 0 {
      StepsXor(a, b, n - 1);
      BitXor(Steps(a, n - 1), Steps(b, n - 1));
    }
  }

  lemma {:induction false} StepsAdd(c: bv32, m: nat, n: nat)
    ensures Steps(c, m + n) == Steps(Steps(c, m), n)
  {
    hide Bit;
    if n > 0 {
      StepsAdd(c, m, n - 1);
    }
  }

  // -------------------------------------------------------------------------------------------------------------
  // Feeding bits
  // -------------------------------------------------------------------------------------------------------------

  lemma {:induction false} FeedAppend(c: bv32, a: seq<bool>, b: seq<bool>)
    ensures Feed(c, a + b) == Feed(Feed(c, a), b)
  {
    hide Xor, Bit;
    if |b| == 0 {
      assert a + b == a;
    } else {
      assert (a + b)[..|a + b| - 1] == a + b[..|b| - 1];
      FeedAppend(c, a, b[..|b| - 1]);
    }
  }

  /** Different registers stay different, whatever bits follow. */
  lemma {:induction false} FeedInjective(c: bv32, d: bv32, bits: seq<bool>)
    requires Feed(c, bits) == Feed(d, bits)
    ensures c == d
  {
    hide Xor, Bit;
    if |bits| > 0 {
      var init, last := bits[..|bits| - 1], BitWord(bits[|bits| - 1]);
      UnbitBit(Xor(Feed(c, init), last));
      UnbitBit(Xor(Feed(d, init), last));
      XorLaws(Feed(c, init), last, 0);
      XorLaws(Feed(d, init), last, 0);
      FeedInjective(c, d, init);
    }
  }

  /** The register before the given bits, from the register after them. */
  function Unfeed(r: bv32, bits: seq<bool>): bv32
    decreases |bits|
  {
    if |bits| == 0 then r else Unfeed(Xor(Unbit(r), BitWord(bits[|bits| - 1])), bits[..|bits| - 1])
  }

  lemma {:induction false} FeedUnfeed(r: bv32, bits: seq<bool>)
    ensures Feed(Unfeed(r, bits), bits) == r
    decreases |bits|
  {
    hide Xor, Bit, Unbit;
    if |bits| > 0 {
      var last := BitWord(bits[|bits| - 1]);
      FeedUnfeed(Xor(Unbit(r), last), bits[..|bits| - 1]);
      XorLaws(Unbit(r), last, 0);
      BitUnbit(r);
    }
  }

  /** The register splits into a part that depends on the start and a part that depends on the bits. */
  lemma {:induction false} FeedSplits(c: bv32, d: bv32, bits: seq<bool>)
    ensures Feed(Xor(c, d), bits) == Xor(Steps(c, |bits|), Feed(d, bits))
  {
    hide Xor, Bit;
    if |bits| > 0 {
      var init, last := bits[..|bits| - 1], BitWord(bits[|bits| - 1]);
      FeedSplits(c, d, init);
      XorLaws(Steps(c, |init|), Feed(d, init), last);
      BitXor(Steps(c, |init|), Xor(Feed(d, init), last));
    }
  }

  lemma {:induction false} BitsAppend(a: seq<bv8>, b: seq<bv8>)
    ensures Bits(a + b) == Bits(a) + Bits(b)
  {
    if |b| == 0 {
      assert a + b == a;
    } else {
      assert (a + b)[..|a + b| - 1] == a + b[..|b| - 1];
      BitsAppend(a, b[..|b| - 1]);
    }
  }

  // -------------------------------------------------------------------------------------------------------------
  // Eight steps at once
  // -------------------------------------------------------------------------------------------------------------

  function Step8(c: bv32): bv32 {
    Bit(Bit(Bit(Bit(Bit(Bit(Bit(Bit(c))))))))
  }

  lemma Step8IsSteps(c: bv32)
    ensures Step8(c) == Steps(c, 8)
  {
    hide Bit;
    assert Steps(c, 0) == c;
    assert Steps(c, 1) == Bit(c);
    assert Steps(c, 2) == Bit(Bit(c));
    assert Steps(c, 4) == Bit(Bit(Bit(Bit(c))));
    assert Steps(c, 6) == Bit(Bit(Bit(Bit(Bit(Bit(c))))));
  }

  lemma Step8Xor(a: bv32, b: bv32)
    ensures Step8(Xor(a, b)) == Xor(Step8(a), Step8(b))
  {
    hide Xor, Bit, Step8;
    Step8IsSteps(a);
    Step8IsSteps(b);
    Step8IsSteps(Xor(a, b));
    StepsXor(a, b, 8);
  }

  lemma Step8Zero()
    ensures Step8(0) == 0
  {
  }
}
