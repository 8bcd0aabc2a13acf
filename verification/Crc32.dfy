/** The slicing-by-8 routine in both byte orders, proved to compute the bit-at-a-time checksum.

  A message byte enters the register by eight steps; the proof first shows that this equals adding the byte to the
  register and stepping eight times, then that four bytes equal adding one word and stepping 32 times, and then
  splits the stepped words into the eight table rows.
*/
module Crc32 {
  import opened Crc32Spec
  import opened Crc32Table

  // -------------------------------------------------------------------------------------------------------------
  // A byte at a time
  // -------------------------------------------------------------------------------------------------------------

  // Shifts and masks have names so that proofs can keep them folded.

  function Half(w: bv32): bv32 { w >> 1 }

  function Parity(w: bv32): bv32 { w & 1 }

  function Tail(w: bv32): bv32 { w >> 8 }

  function HighBytes(w: bv32): bv32 { w & 0xFFFFFF00 }

  function LowByte(w: bv32): bv8 { (w & 0xFF) as bv8 }

  function Widen(b: bv8): bv32 { b as bv32 }

  lemma BitOfEven(w: bv32)
    requires Parity(w) == 0
    ensures Bit(w) == Half(w)
  {
  }

  lemma SplitParity(w: bv32)
    ensures Xor(Parity(w), w & 0xFFFFFFFE) == w
    ensures Parity(w & 0xFFFFFFFE) == 0 && Half(w & 0xFFFFFFFE) == Half(w)
  {
  }

  /** Adding a word and taking a step leaves all but the lowest bit of the word still added. */
  lemma ShiftOutBit(c: bv32, w: bv32)
    ensures Bit(Xor(c, w)) == Xor(Bit(Xor(c, Parity(w))), Half(w))
  {
    hide Bit, Xor, Parity, Half;
    var even := w & 0xFFFFFFFE;
    SplitParity(w);
    BitOfEven(even);
    XorLaws(c, Parity(w), even);
    BitXor(Xor(c, Parity(w)), even);
  }

  function Shift(w: bv32, n: nat): bv32 {
    if n == 0 then w else Half(Shift(w, n - 1))
  }

  /** The n lowest bits of a word, lowest first. */
  function LowBits(w: bv32, n: nat): (bits: seq<bool>)
    ensures |bits| == n
  {
    if n == 0 then [] else LowBits(w, n - 1) + [Parity(Shift(w, n - 1)) == 1]
  }

  /** Feeding the low bits of a word one at a time equals adding the whole word, stepping, and taking off the rest. */
  lemma {:induction false} FeedLowBits(c: bv32, w: bv32, n: nat)
    ensures Feed(c, LowBits(w, n)) == Xor(Steps(Xor(c, w), n), Shift(w, n))
  {
    hide Bit, Xor, Half, Parity;
    if n == 0 {
      XorLaws(c, w, 0);
    } else {
      var fed, rest := Steps(Xor(c, w), n - 1), Shift(w, n - 1);
      FeedLowBits(c, w, n - 1);
      assert LowBits(w, n)[..n - 1] == LowBits(w, n - 1);
      ParityIsBitWord(rest);
      ShiftOutBit(Xor(fed, rest), rest);
      XorLaws(fed, rest, 0);
      XorLaws(Bit(Xor(Xor(fed, rest), Parity(rest))), Half(rest), 0);
    }
  }

  lemma ParityIsBitWord(w: bv32)
    ensures BitWord(Parity(w) == 1) == Parity(w)
  {
    LowBit(w);
  }

  lemma FourLowBits(w: bv32, n: nat)
    ensures LowBits(w, n + 4) == LowBits(w, n) + [Parity(Shift(w, n)) == 1, Parity(Shift(w, n + 1)) == 1,
                                                  Parity(Shift(w, n + 2)) == 1, Parity(Shift(w, n + 3)) == 1]
  {
    hide Half, Parity;
    assert LowBits(w, n + 2) == LowBits(w, n) + [Parity(Shift(w, n)) == 1, Parity(Shift(w, n + 1)) == 1];
  }

  lemma FourShifts(w: bv32, n: nat)
    ensures Shift(w, n + 1) == Half(Shift(w, n)) && Shift(w, n + 2) == Half(Half(Shift(w, n)))
    ensures Shift(w, n + 3) == Half(Half(Half(Shift(w, n)))) && Shift(w, n + 4) == Half(Half(Half(Half(Shift(w, n)))))
  {
    hide Half;
    assert Shift(w, n + 1) == Half(Shift(w, n));
    assert Shift(w, n + 2) == Half(Half(Shift(w, n)));
    assert Shift(w, n + 3) == Half(Half(Half(Shift(w, n))));
  }

  lemma NoLowBits(w: bv32)
    ensures Shift(w, 0) == w && LowBits(w, 0) == []
  {
  }

  lemma ByteIsLowBits(b: bv8)
    ensures LowBits(Widen(b), 8) == ByteBits(b) && Shift(Widen(b), 8) == 0
  {
    hide Half, Parity, ByteBits, Widen, LowBits, Shift;
    var w := Widen(b);
    NoLowBits(w);
    FourLowBits(w, 0);
    FourLowBits(w, 4);
    FourShifts(w, 0);
    FourShifts(w, 4);
    ByteBitsAreShifts(b, w, Shift(w, 1), Shift(w, 2), Shift(w, 3), Shift(w, 4),
                      Shift(w, 5), Shift(w, 6), Shift(w, 7), Shift(w, 8));
  }

  lemma ByteBitsAreShifts(b: bv8, s0: bv32, s1: bv32, s2: bv32, s3: bv32, s4: bv32,
                          s5: bv32, s6: bv32, s7: bv32, s8: bv32)
    requires s0 == Widen(b) && s1 == Half(s0) && s2 == Half(Half(s0)) && s3 == Half(Half(Half(s0)))
    requires s4 == Half(Half(Half(Half(s0)))) && s5 == Half(s4) && s6 == Half(Half(s4))
    requires s7 == Half(Half(Half(s4))) && s8 == Half(Half(Half(Half(s4))))
    ensures ByteBits(b) == [Parity(s0) == 1, Parity(s1) == 1, Parity(s2) == 1, Parity(s3) == 1]
                         + [Parity(s4) == 1, Parity(s5) == 1, Parity(s6) == 1, Parity(s7) == 1]
    ensures s8 == 0
  {
  }

  /** Eight message bits, one at a time, equal one byte added to the register and eight steps. */
  lemma FeedByte(c: bv32, b: bv8)
    ensures Feed(c, ByteBits(b)) == Step8(Xor(c, Widen(b)))
  {
    hide Bit, Xor, Step8, Widen, ByteBits;
    FeedLowBits(c, Widen(b), 8);
    ByteIsLowBits(b);
    Step8IsSteps(Xor(c, Widen(b)));
    XorLaws(Step8(Xor(c, Widen(b))), 0, 0);
  }

  /** The register after the bits of a message. */
  function FeedBytes(c: bv32, message: seq<bv8>): bv32 {
    Feed(c, Bits(message))
  }

  lemma FeedBytesAppend(c: bv32, a: seq<bv8>, b: seq<bv8>)
    ensures FeedBytes(c, a + b) == FeedBytes(FeedBytes(c, a), b)
  {
    BitsAppend(a, b);
    FeedAppend(c, Bits(a), Bits(b));
  }

  lemma FeedOneByte(c: bv32, b: bv8)
    ensures FeedBytes(c, [b]) == Step8(Xor(c, Widen(b)))
  {
    hide Bit, Xor, Step8, ByteBits, Widen;
    assert [b][..0] == [] && Bits([]) == [];
    assert Bits([b]) == ByteBits(b);
    FeedByte(c, b);
  }

  // -------------------------------------------------------------------------------------------------------------
  // A word at a time
  // -------------------------------------------------------------------------------------------------------------

  predicate Clear(w: bv32, mask: bv32) { w & mask == 0 }

  /** A word whose bits under an odd mask are clear: one step halves it. */
  lemma StepClear(w: bv32, mask: bv32)
    requires Clear(w, mask) && mask & 1 == 1
    ensures Bit(w) == Half(w) && Clear(Half(w), mask >> 1)
  {
    assert w & 1 == 0;
  }

  lemma Step8OfHigh(w: bv32)
    ensures Step8(HighBytes(w)) == Tail(w)
  {
    var h := HighBytes(w);
    HighBytesAreClear(w);
    HalvesAreTail(h);
    hide Bit, Half, HighBytes, Tail, Clear;
    StepClear(h, 0xFF);
    StepClear(Half(h), 0x7F);
    StepClear(Half(Half(h)), 0x3F);
    StepClear(Half(Half(Half(h))), 0x1F);
    StepClear(Half(Half(Half(Half(h)))), 0xF);
    StepClear(Half(Half(Half(Half(Half(h))))), 0x7);
    StepClear(Half(Half(Half(Half(Half(Half(h)))))), 0x3);
    StepClear(Half(Half(Half(Half(Half(Half(Half(h))))))), 0x1);
  }

  lemma HighBytesAreClear(w: bv32)
    ensures Clear(HighBytes(w), 0xFF) && Tail(HighBytes(w)) == Tail(w)
  {
  }

  lemma HalvesAreTail(w: bv32)
    ensures Half(Half(Half(Half(Half(Half(Half(Half(w)))))))) == Tail(w)
  {
  }

  lemma SplitLowByte(w: bv32)
    ensures Xor(Widen(LowByte(w)), HighBytes(w)) == w && Xor(HighBytes(w), Widen(LowByte(w))) == w
  {
  }

  /** Stepping a word eight times is a look-up of its low byte and a shift of the rest. */
  lemma Step8ByTable(w: bv32)
    ensures Step8(w) == Xor(Tail(w), Lookup(0, LowByte(w)))
  {
    SplitLowByte(w);
    Row0Steps(LowByte(w));
    Step8OfHigh(w);
    assert Widen(LowByte(w)) == LowByte(w) as bv32;
    hide Step8, Xor, LowByte, Row0, Widen, HighBytes, Tail;
    Step8Xor(HighBytes(w), Widen(LowByte(w)));
  }

  /** Adding a word and feeding its low byte leaves the remaining bytes of the word still added. */
  lemma ShiftOutByte(c: bv32, w: bv32)
    ensures Step8(Xor(c, w)) == Xor(Step8(Xor(c, Widen(LowByte(w)))), Tail(w))
  {
    hide Step8, Xor, LowByte, Widen, HighBytes, Tail;
    SplitLowByte(w);
    Step8OfHigh(w);
    XorLaws(c, Widen(LowByte(w)), HighBytes(w));
    Step8Xor(Xor(c, Widen(LowByte(w))), HighBytes(w));
  }

  function Step32(c: bv32): bv32 {
    Step8(Step8(Step8(Step8(c))))
  }

  /** Four bytes in memory order as a little-endian word. */
  function LittleEndian(b0: bv8, b1: bv8, b2: bv8, b3: bv8): bv32 {
    b0 as bv32 | (b1 as bv32 << 8) | (b2 as bv32 << 16) | (b3 as bv32 << 24)
  }

  lemma LittleEndianBytes(b0: bv8, b1: bv8, b2: bv8, b3: bv8)
    ensures var w := LittleEndian(b0, b1, b2, b3);
      && LowByte(w) == b0 && LowByte(Tail(w)) == b1 && LowByte(Tail(Tail(w))) == b2
      && LowByte(Tail(Tail(Tail(w)))) == b3 && Tail(Tail(Tail(Tail(w)))) == 0
  {
  }

  /** Feeding 32 message bits equals adding the word they form and stepping 32 times. */
  lemma FeedWord(c: bv32, b0: bv8, b1: bv8, b2: bv8, b3: bv8)
    ensures FeedBytes(c, [b0, b1, b2, b3]) == Step32(Xor(c, LittleEndian(b0, b1, b2, b3)))
  {
    hide Step8, Xor, LittleEndian, FeedBytes, LowByte, Widen, Tail;
    var w := LittleEndian(b0, b1, b2, b3);
    var c1 := Step8(Xor(c, Widen(b0)));
    var c2 := Step8(Xor(c1, Widen(b1)));
    var c3 := Step8(Xor(c2, Widen(b2)));
    var c4 := Step8(Xor(c3, Widen(b3)));
    LittleEndianBytes(b0, b1, b2, b3);
    assert FeedBytes(c, [b0, b1, b2, b3]) == c4 by {
      FeedOneByte(c, b0);
      FeedBytesAppend(c, [b0], [b1]);
      FeedOneByte(c1, b1);
      FeedBytesAppend(c, [b0, b1], [b2]);
      FeedOneByte(c2, b2);
      FeedBytesAppend(c, [b0, b1, b2], [b3]);
      FeedOneByte(c3, b3);
      assert [b0] + [b1] == [b0, b1] && [b0, b1] + [b2] == [b0, b1, b2] && [b0, b1, b2] + [b3] == [b0, b1, b2, b3];
    }
    ShiftOutByte(c, w);
    ShiftOutByte(c1, Tail(w));
    ShiftOutByte(c2, Tail(Tail(w)));
    ShiftOutByte(c3, Tail(Tail(Tail(w))));
    XorLaws(c4, 0, 0);
  }

  lemma Step32Xor(a: bv32, b: bv32)
    ensures Step32(Xor(a, b)) == Xor(Step32(a), Step32(b))
  {
    hide Step8, Xor;
    Step8Xor(a, b);
    Step8Xor(Step8(a), Step8(b));
    Step8Xor(Step8(Step8(a)), Step8(Step8(b)));
    Step8Xor(Step8(Step8(Step8(a))), Step8(Step8(Step8(b))));
  }

  /** The four rows that serve the word nearer the end of a block. */
  lemma Step32ByTables(w: bv32)
    ensures Step32(w) == Xor(Xor(Lookup(0, LowByte(Tail(Tail(Tail(w))))), Lookup(1, LowByte(Tail(Tail(w))))),
                             Xor(Lookup(2, LowByte(Tail(w))), Lookup(3, LowByte(w))))
  {
    hide Step8, Xor, LowByte, Lookup, Tail;
    var w1, w2, w3 := Tail(w), Tail(Tail(w)), Tail(Tail(Tail(w)));
    assert Tail(w3) == 0 by { FourTails(w); }
    var r0, r1, r2, r3 := Lookup(0, LowByte(w)), Lookup(0, LowByte(w1)), Lookup(0, LowByte(w2)), Lookup(0, LowByte(w3));
    LookupRecurrence(1, LowByte(w));
    LookupRecurrence(2, LowByte(w));
    LookupRecurrence(3, LowByte(w));
    LookupRecurrence(1, LowByte(w1));
    LookupRecurrence(2, LowByte(w1));
    LookupRecurrence(1, LowByte(w2));
    Step8ByTable(w);
    Step8ByTable(w1);
    Step8ByTable(w2);
    Step8ByTable(w3);
    Step8Xor(w1, r0);
    Step8Xor(Step8(w1), Step8(r0));
    Step8Xor(Step8(Step8(w1)), Step8(Step8(r0)));
    Step8Xor(w2, r1);
    Step8Xor(Step8(w2), Step8(r1));
    Step8Xor(w3, r2);
    XorLaws(r3, 0, 0);
    XorLaws(Xor(r3, Step8(r2)), Step8(Step8(r1)), Step8(Step8(Step8(r0))));
  }

  lemma FourTails(w: bv32)
    ensures Tail(Tail(Tail(Tail(w)))) == 0
  {
  }

  /** The four rows that serve the word that has a second word behind it. */
  lemma Step64ByTables(w: bv32)
    ensures Step32(Step32(w)) == Xor(Xor(Lookup(4, LowByte(Tail(Tail(Tail(w))))), Lookup(5, LowByte(Tail(Tail(w))))),
                                     Xor(Lookup(6, LowByte(Tail(w))), Lookup(7, LowByte(w))))
  {
    hide Step8, Xor, LowByte, Lookup, Step32, Tail;
    Step32ByTables(w);
    var i0, i1, i2, i3 := LowByte(Tail(Tail(Tail(w)))), LowByte(Tail(Tail(w))), LowByte(Tail(w)), LowByte(w);
    Step32Xor(Xor(Lookup(0, i0), Lookup(1, i1)), Xor(Lookup(2, i2), Lookup(3, i3)));
    Step32Xor(Lookup(0, i0), Lookup(1, i1));
    Step32Xor(Lookup(2, i2), Lookup(3, i3));
    FourRowsOn(0, i0);
    FourRowsOn(1, i1);
    FourRowsOn(2, i2);
    FourRowsOn(3, i3);
  }

  lemma FourRowsOn(row: nat, i: bv8)
    requires row < 4
    ensures Step32(Lookup(row, i)) == Lookup(row + 4, i)
  {
    hide Step8, Lookup;
    LookupRecurrence(row + 1, i);
    LookupRecurrence(row + 2, i);
    LookupRecurrence(row + 3, i);
    LookupRecurrence(row + 4, i);
  }

  // -------------------------------------------------------------------------------------------------------------
  // One block of eight bytes
  // -------------------------------------------------------------------------------------------------------------

  function XorAll(a: bv32, b: bv32, c: bv32, d: bv32, e: bv32, f: bv32, g: bv32, h: bv32): bv32 {
    Xor(Xor(Xor(Xor(Xor(Xor(Xor(a, b), c), d), e), f), g), h)
  }

  lemma XorAllPairs(a: bv32, b: bv32, c: bv32, d: bv32, e: bv32, f: bv32, g: bv32, h: bv32)
    ensures XorAll(a, b, c, d, e, f, g, h) == Xor(Xor(Xor(e, f), Xor(g, h)), Xor(Xor(a, b), Xor(c, d)))
  {
    hide Xor;
    var left := Xor(Xor(Xor(a, b), c), d);
    XorAssociates(Xor(a, b), c, d);
    XorAssociates(left, e, f);
    XorAssociates(Xor(left, Xor(e, f)), g, h);
    XorAssociates(left, Xor(e, f), Xor(g, h));
    XorCommutes(left, Xor(Xor(e, f), Xor(g, h)));
  }

  lemma TailsAreShifts(w: bv32)
    ensures Tail(w) == w >> 8 && Tail(Tail(w)) == w >> 16 && Tail(Tail(Tail(w))) == w >> 24
  {
  }

  /** The register after a block, for words loaded in little-endian order. */
  function BlockLittle(one: bv32, two: bv32): bv32 {
    XorAll(
      Lookup(0, LowByte(two >> 24)),
      Lookup(1, LowByte(two >> 16)),
      Lookup(2, LowByte(two >> 8)),
      Lookup(3, LowByte(two)),
      Lookup(4, LowByte(one >> 24)),
      Lookup(5, LowByte(one >> 16)),
      Lookup(6, LowByte(one >> 8)),
      Lookup(7, LowByte(one)))
  }

  /** The eight look-ups are 64 steps of the first word added to 32 steps of the second. */
  lemma BlockLittleIsSteps(one: bv32, two: bv32)
    ensures BlockLittle(one, two) == Xor(Step32(Step32(one)), Step32(two))
  {
    hide Lookup, LowByte, Step32, Xor, Tail;
    TailsAreShifts(one);
    TailsAreShifts(two);
    Step64ByTables(one);
    Step32ByTables(two);
    XorAllPairs(Lookup(0, LowByte(two >> 24)), Lookup(1, LowByte(two >> 16)),
                Lookup(2, LowByte(two >> 8)), Lookup(3, LowByte(two)),
                Lookup(4, LowByte(one >> 24)), Lookup(5, LowByte(one >> 16)),
                Lookup(6, LowByte(one >> 8)), Lookup(7, LowByte(one)));
  }

  /** One turn of the block loop is the checksum of its eight bytes. */
  lemma BlockLittleFeeds(c: bv32, block: seq<bv8>)
    requires |block| == 8
    ensures FeedBytes(c, block) == BlockLittle(Xor(LittleEndian(block[0], block[1], block[2], block[3]), c),
                                               LittleEndian(block[4], block[5], block[6], block[7]))
  {
    var w1 := LittleEndian(block[0], block[1], block[2], block[3]);
    var w2 := LittleEndian(block[4], block[5], block[6], block[7]);
    XorCommutes(w1, c);
    hide BlockLittle, LittleEndian, FeedBytes, Xor, Step32;
    assert block == [block[0], block[1], block[2], block[3]] + [block[4], block[5], block[6], block[7]];
    FeedBytesAppend(c, [block[0], block[1], block[2], block[3]], [block[4], block[5], block[6], block[7]]);
    FeedWord(c, block[0], block[1], block[2], block[3]);
    FeedWord(Step32(Xor(c, w1)), block[4], block[5], block[6], block[7]);
    BlockLittleIsSteps(Xor(c, w1), w2);
    Step32Xor(Step32(Xor(c, w1)), w2);
  }

  /** One turn of the byte loop is the checksum of its byte. */
  lemma TailByteFeeds(c: bv32, b: bv8)
    ensures FeedBytes(c, [b]) == Xor(Tail(c), Lookup(0, LowByte(c) ^ b))
  {
    var w := Xor(c, Widen(b));
    LowByteOfSum(c, b);
    hide Lookup, LowByte, FeedBytes, Xor, Widen, Step8, Tail;
    FeedOneByte(c, b);
    Step8ByTable(w);
  }

  lemma LowByteOfSum(c: bv32, b: bv8)
    ensures LowByte(Xor(c, Widen(b))) == LowByte(c) ^ b && Tail(Xor(c, Widen(b))) == Tail(c)
  {
  }

  /** The block step at a place in a longer message. */
  lemma BlockExtends(start: bv32, message: seq<bv8>, at: nat)
    requires at + 8 <= |message|
    ensures FeedBytes(start, message[..at + 8])
         == BlockLittle(Xor(LittleEndian(message[at], message[at + 1], message[at + 2], message[at + 3]),
                            FeedBytes(start, message[..at])),
                        LittleEndian(message[at + 4], message[at + 5], message[at + 6], message[at + 7]))
  {
    hide BlockLittle, LittleEndian, FeedBytes, Xor;
    var block := message[at..at + 8];
    assert message[..at] + block == message[..at + 8];
    FeedBytesAppend(start, message[..at], block);
    BlockLittleFeeds(FeedBytes(start, message[..at]), block);
  }

  /** The byte step at a place in a longer message. */
  lemma ByteExtends(start: bv32, message: seq<bv8>, at: nat)
    requires at < |message|
    ensures FeedBytes(start, message[..at + 1])
         == Xor(Tail(FeedBytes(start, message[..at])),
           Lookup(0, LowByte(FeedBytes(start, message[..at])) ^ message[at]))
  {
    hide Lookup, LowByte, FeedBytes, Xor, Tail;
    assert message[..at] + [message[at]] == message[..at + 1];
    FeedBytesAppend(start, message[..at], [message[at]]);
    TailByteFeeds(FeedBytes(start, message[..at]), message[at]);
  }

  // -------------------------------------------------------------------------------------------------------------
  // The routine, little-endian build
  // -------------------------------------------------------------------------------------------------------------

  method DgiCRC32_8Bytes(data: array<bv8>, length: nat, previousCrc32: bv32) returns (crc: bv32)
    requires length <= data.Length && length < 0x1_0000_0000
    ensures crc == Crc(previousCrc32, data[..length])
  {
    hide BlockLittle, LittleEndian, FeedBytes, Not, Xor, Tail, Lookup, LowByte;
    crc := Not(previousCrc32);
    var remaining, current := length, 0;
    NothingFed(crc);
    while remaining >= 8
      invariant current + remaining == length
      invariant crc == FeedBytes(Not(previousCrc32), data[..length][..current])
    {
      var one := Xor(LittleEndian(data[current], data[current + 1], data[current + 2], data[current + 3]), crc);
      current := current + 4;
      var two := LittleEndian(data[current], data[current + 1], data[current + 2], data[current + 3]);
      current := current + 4;
      BlockExtends(Not(previousCrc32), data[..length], current - 8);
      crc := BlockLittle(one, two);
      remaining := remaining - 8;
    }
    while remaining != 0
      invariant current + remaining == length
      invariant crc == FeedBytes(Not(previousCrc32), data[..length][..current])
    {
      remaining := remaining - 1;
      ByteExtends(Not(previousCrc32), data[..length], current);
      crc := Xor(Tail(crc), Lookup(0, LowByte(crc) ^ data[current]));
      current := current + 1;
    }
    assert data[..length][..length] == data[..length];
    CrcFeedsBytes(previousCrc32, data[..length]);
    crc := Not(crc);
  }

  lemma NothingFed(c: bv32)
    ensures FeedBytes(c, []) == c
  {
  }

  lemma CrcFeedsBytes(previous: bv32, message: seq<bv8>)
    ensures Crc(previous, message) == Not(FeedBytes(Not(previous), message))
  {
  }

  // -------------------------------------------------------------------------------------------------------------
  // The routine, big-endian build
  // -------------------------------------------------------------------------------------------------------------

  /** Four bytes in memory order as a big-endian word. */
  function BigEndian(b0: bv8, b1: bv8, b2: bv8, b3: bv8): bv32 {
    b3 as bv32 | (b2 as bv32 << 8) | (b1 as bv32 << 16) | (b0 as bv32 << 24)
  }

  function CRC32Swap(x: bv32): bv32 {
    (x >> 24) | ((x >> 8) & 0x0000FF00) | ((x << 8) & 0x00FF0000) | (x << 24)
  }

  /** The register after a block, for words loaded in big-endian order. */
  function BlockBig(one: bv32, two: bv32): bv32 {
    XorAll(
      Lookup(0, LowByte(two)),
      Lookup(1, LowByte(two >> 8)),
      Lookup(2, LowByte(two >> 16)),
      Lookup(3, LowByte(two >> 24)),
      Lookup(4, LowByte(one)),
      Lookup(5, LowByte(one >> 8)),
      Lookup(6, LowByte(one >> 16)),
      Lookup(7, LowByte(one >> 24)))
  }

  lemma SwapReversesBytes(x: bv32)
    ensures LowByte(CRC32Swap(x)) == LowByte(x >> 24) && LowByte(CRC32Swap(x) >> 8) == LowByte(x >> 16)
    ensures LowByte(CRC32Swap(x) >> 16) == LowByte(x >> 8) && LowByte(CRC32Swap(x) >> 24) == LowByte(x)
  {
  }

  lemma SwapXor(a: bv32, b: bv32)
    ensures CRC32Swap(Xor(a, b)) == Xor(CRC32Swap(a), CRC32Swap(b))
  {
  }

  lemma SwapOfLoad(b0: bv8, b1: bv8, b2: bv8, b3: bv8)
    ensures BigEndian(b0, b1, b2, b3) == CRC32Swap(LittleEndian(b0, b1, b2, b3))
  {
  }

  lemma BlocksAgree(one: bv32, two: bv32)
    ensures BlockBig(CRC32Swap(one), CRC32Swap(two)) == BlockLittle(one, two)
  {
    hide Lookup, LowByte, CRC32Swap, XorAll;
    SwapReversesBytes(one);
    SwapReversesBytes(two);
  }

  /** The big-endian block step at a place in a longer message. */
  lemma BlockExtendsBig(start: bv32, message: seq<bv8>, at: nat)
    requires at + 8 <= |message|
    ensures FeedBytes(start, message[..at + 8])
         == BlockBig(Xor(BigEndian(message[at], message[at + 1], message[at + 2], message[at + 3]),
                         CRC32Swap(FeedBytes(start, message[..at]))),
                     BigEndian(message[at + 4], message[at + 5], message[at + 6], message[at + 7]))
  {
    hide BlockLittle, BlockBig, LittleEndian, BigEndian, CRC32Swap, FeedBytes, Xor;
    BlockExtends(start, message, at);
    SwapOfLoad(message[at], message[at + 1], message[at + 2], message[at + 3]);
    SwapOfLoad(message[at + 4], message[at + 5], message[at + 6], message[at + 7]);
    SwapXor(LittleEndian(message[at], message[at + 1], message[at + 2], message[at + 3]),
      FeedBytes(start, message[..at]));
    BlocksAgree(Xor(LittleEndian(message[at], message[at + 1], message[at + 2], message[at + 3]),
      FeedBytes(start, message[..at])),
                LittleEndian(message[at + 4], message[at + 5], message[at + 6], message[at + 7]));
  }

  method DgiCRC32_8BytesBigEndian(data: array<bv8>, length: nat, previousCrc32: bv32) returns (crc: bv32)
    requires length <= data.Length && length < 0x1_0000_0000
    ensures crc == Crc(previousCrc32, data[..length])
  {
    hide BlockLittle, BlockBig, LittleEndian, BigEndian, CRC32Swap, FeedBytes, Not, Xor, Tail, Lookup, LowByte;
    crc := Not(previousCrc32);
    var remaining, current := length, 0;
    NothingFed(crc);
    while remaining >= 8
      invariant current + remaining == length
      invariant crc == FeedBytes(Not(previousCrc32), data[..length][..current])
    {
      var one := Xor(BigEndian(data[current], data[current + 1], data[current + 2], data[current + 3]), CRC32Swap(crc));
      current := current + 4;
      var two := BigEndian(data[current], data[current + 1], data[current + 2], data[current + 3]);
      current := current + 4;
      BlockExtendsBig(Not(previousCrc32), data[..length], current - 8);
      crc := BlockBig(one, two);
      remaining := remaining - 8;
    }
    while remaining != 0
      invariant current + remaining == length
      invariant crc == FeedBytes(Not(previousCrc32), data[..length][..current])
    {
      remaining := remaining - 1;
      ByteExtends(Not(previousCrc32), data[..length], current);
      crc := Xor(Tail(crc), Lookup(0, LowByte(crc) ^ data[current]));
      current := current + 1;
    }
    assert data[..length][..length] == data[..length];
    CrcFeedsBytes(previousCrc32, data[..length]);
    crc := Not(crc);
  }
}
