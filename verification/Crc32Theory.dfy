/** What the checksum is good for: laws that hold for every message. */
module Crc32Theory {
  import opened Crc32Spec
  import opened Crc32Table
  import opened Crc32

  // -------------------------------------------------------------------------------------------------------------
  // Chaining and combination
  // -------------------------------------------------------------------------------------------------------------

  function Concat(pieces: seq<seq<bv8>>): seq<bv8> {
    if |pieces| == 0 then [] else Concat(pieces[..|pieces| - 1]) + pieces[|pieces| - 1]
  }

  /** The result of feeding the pieces one call at a time, each call continuing from the one before. */
  function ChainedCrc(previous: bv32, pieces: seq<seq<bv8>>): bv32 {
    if |pieces| == 0 then previous else Crc(ChainedCrc(previous, pieces[..|pieces| - 1]), pieces[|pieces| - 1])
  }

  lemma CrcAppend(previous: bv32, a: seq<bv8>, b: seq<bv8>)
    ensures Crc(previous, a + b) == Crc(Crc(previous, a), b)
  {
    hide Xor, Bit, Not;
    BitsAppend(a, b);
    FeedAppend(Not(previous), Bits(a), Bits(b));
    NotNot(Feed(Not(previous), Bits(a)));
  }

  /** However a message is cut up, chaining the calls gives the checksum of the whole. */
  lemma {:induction false} ChainingIsWhole(previous: bv32, pieces: seq<seq<bv8>>)
    ensures ChainedCrc(previous, pieces) == Crc(previous, Concat(pieces))
  {
    if |pieces| == 0 {
      NotNot(previous);
    } else {
      ChainingIsWhole(previous, pieces[..|pieces| - 1]);
      CrcAppend(previous, Concat(pieces[..|pieces| - 1]), pieces[|pieces| - 1]);
    }
  }

  function ZeroBytes(n: nat): (zeros: seq<bv8>)
    ensures |zeros| == n
  {
    if n == 0 then [] else ZeroBytes(n - 1) + [0]
  }

  /** The operator of n zero bytes on a register. */
  function PastZeros(c: bv32, n: nat): bv32 {
    FeedBytes(c, ZeroBytes(n))
  }

  lemma {:induction false} PastZerosIsSteps(c: bv32, n: nat)
    ensures PastZeros(c, n) == Steps(c, 8 * n)
  {
    hide Xor, Bit, Step8;
    if n == 0 {
    } else {
      PastZerosIsSteps(c, n - 1);
      var before := Steps(c, 8 * (n - 1));
      FeedBytesAppend(c, ZeroBytes(n - 1), [0]);
      FeedOneByte(before, 0);
      XorLaws(before, 0, 0);
      Step8IsSteps(before);
      StepsAdd(c, 8 * (n - 1), 8);
    }
  }

  lemma PastZerosIsLinear(a: bv32, b: bv32, n: nat)
    ensures PastZeros(Xor(a, b), n) == Xor(PastZeros(a, n), PastZeros(b, n))
  {
    hide Xor, PastZeros;
    PastZerosIsSteps(a, n);
    PastZerosIsSteps(b, n);
    PastZerosIsSteps(Xor(a, b), n);
    StepsXor(a, b, 8 * n);
  }

  /** The checksum of a whole from the checksums of its two parts and the length of the second.  The second part may
      have been started from any value; with q == 0 this is the usual law for combining two checksums. */
  lemma Combination(p: bv32, q: bv32, a: seq<bv8>, b: seq<bv8>)
    ensures Crc(p, a + b) == Xor(PastZeros(Xor(Crc(p, a), q), |b|), Crc(q, b))
  {
    hide Xor, Not, Bit, PastZeros;
    var r := Crc(p, a);
    CrcAppend(p, a, b);
    PastZerosIsSteps(Xor(r, q), |b|);
    FeedSplits(Xor(r, q), Not(q), Bits(b));
    NotXor(r, q);
    NotOfSum(Steps(Xor(r, q), 8 * |b|), Feed(Not(q), Bits(b)));
  }

  lemma NotXor(r: bv32, q: bv32)
    ensures Xor(Xor(r, q), Not(q)) == Not(r)
  {
  }

  lemma NotOfSum(a: bv32, b: bv32)
    ensures Not(Xor(a, b)) == Xor(a, Not(b))
  {
  }

  // -------------------------------------------------------------------------------------------------------------
  // Four bytes and the register
  // -------------------------------------------------------------------------------------------------------------

  /** The bytes of a word, least significant first. */
  function WordBytes(w: bv32): (bytes: seq<bv8>)
    ensures |bytes| == 4
  {
    [LowByte(w), LowByte(Tail(w)), LowByte(Tail(Tail(w))), LowByte(Tail(Tail(Tail(w))))]
  }

  lemma LittleEndianOfBytes(w: bv32)
    ensures LittleEndian(LowByte(w), LowByte(Tail(w)), LowByte(Tail(Tail(w))), LowByte(Tail(Tail(Tail(w))))) == w
  {
  }

  lemma FeedWordBytes(c: bv32, w: bv32)
    ensures FeedBytes(c, WordBytes(w)) == Step32(Xor(c, w))
  {
    hide Xor, LowByte, Tail, LittleEndian, Step32, FeedBytes;
    FeedWord(c, LowByte(w), LowByte(Tail(w)), LowByte(Tail(Tail(w))), LowByte(Tail(Tail(Tail(w)))));
    LittleEndianOfBytes(w);
  }

  lemma Step8Injective(a: bv32, b: bv32)
    requires Step8(a) == Step8(b)
    ensures a == b
  {
    hide Bit, Step8;
    Step8IsSteps(a);
    Step8IsSteps(b);
    StepsInjective(a, b, 8);
  }

  lemma {:induction false} StepsInjective(a: bv32, b: bv32, n: nat)
    requires Steps(a, n) == Steps(b, n)
    ensures a == b
  {
    hide Bit;
    if n > 0 {
      UnbitBit(Steps(a, n - 1));
      UnbitBit(Steps(b, n - 1));
      StepsInjective(a, b, n - 1);
    }
  }

  lemma Step32Injective(a: bv32, b: bv32)
    requires Step32(a) == Step32(b)
    ensures a == b
  {
    hide Step8;
    Step8Injective(Step8(Step8(Step8(a))), Step8(Step8(Step8(b))));
    Step8Injective(Step8(Step8(a)), Step8(Step8(b)));
    Step8Injective(Step8(a), Step8(b));
    Step8Injective(a, b);
  }

  /** Two four-byte strings that take one register to the same place are the same string. */
  lemma FourBytesInjective(c: bv32, a: seq<bv8>, b: seq<bv8>)
    requires |a| == |b| == 4 && FeedBytes(c, a) == FeedBytes(c, b)
    ensures a == b
  {
    hide Xor, FeedBytes, Step32, LittleEndian, LowByte, Tail;
    var v, w := LittleEndian(a[0], a[1], a[2], a[3]), LittleEndian(b[0], b[1], b[2], b[3]);
    assert a == [a[0], a[1], a[2], a[3]] && b == [b[0], b[1], b[2], b[3]];
    FeedWord(c, a[0], a[1], a[2], a[3]);
    FeedWord(c, b[0], b[1], b[2], b[3]);
    Step32Injective(Xor(c, v), Xor(c, w));
    XorLaws(c, v, 0);
    XorLaws(c, w, 0);
    XorLaws(v, c, 0);
    XorLaws(w, c, 0);
    LittleEndianBytes(a[0], a[1], a[2], a[3]);
    LittleEndianBytes(b[0], b[1], b[2], b[3]);
  }

  lemma Step32Residue()
    ensures Not(Step32(0xFFFFFFFF)) == 0x2144DF1C
  {
    assert Step8(0xFFFFFFFF) == 0x2DFD1072;
    assert Step8(0x2DFD1072) == 0xBE26ED00;
    assert Step8(0xBE26ED00) == 0x00BE26ED;
    assert Step8(0x00BE26ED) == 0xDEBB20E3;
  }

  /** A message followed by its own checksum, low byte first, always has the same checksum. */
  lemma Residue(previous: bv32, message: seq<bv8>)
    ensures Crc(previous, message + WordBytes(Crc(previous, message))) == 0x2144DF1C
  {
    hide Xor, Not, Step32, WordBytes;
    var r := Feed(Not(previous), Bits(message));
    BitsAppend(message, WordBytes(Not(r)));
    FeedAppend(Not(previous), Bits(message), Bits(WordBytes(Not(r))));
    FeedWordBytes(r, Not(r));
    XorNot(r);
    Step32Residue();
  }

  lemma XorNot(r: bv32)
    ensures Xor(r, Not(r)) == 0xFFFFFFFF
  {
  }

  // -------------------------------------------------------------------------------------------------------------
  // Bijections
  // -------------------------------------------------------------------------------------------------------------

  lemma NotInjective(a: bv32, b: bv32)
    requires Not(a) == Not(b)
    ensures a == b
  {
    NotNot(a);
    NotNot(b);
  }

  /** For a fixed message, every checksum comes from exactly one previous value. */
  lemma PreviousBijection(message: seq<bv8>, target: bv32)
    ensures var p := Not(Unfeed(Not(target), Bits(message)));
      forall q :: Crc(q, message) == target <==> q == p
  {
    var p := Not(Unfeed(Not(target), Bits(message)));
    forall q ensures Crc(q, message) == target <==> q == p {
      hide Xor, Not, Bit, Unbit;
      NotNot(Unfeed(Not(target), Bits(message)));
      FeedUnfeed(Not(target), Bits(message));
      NotNot(target);
      if Crc(q, message) == target {
        NotInjective(Feed(Not(q), Bits(message)), Not(target));
        FeedInjective(Not(q), Not(p), Bits(message));
        NotInjective(q, p);
      }
    }
  }

  /** For fixed surroundings, every checksum comes from exactly one choice of four consecutive bytes. */
  lemma FourBytesBijection(previous: bv32, before: seq<bv8>, after: seq<bv8>, target: bv32)
    ensures exists w :: forall bytes: seq<bv8> | |bytes| == 4 ::
      Crc(previous, before + bytes + after) == target <==> bytes == WordBytes(w)
  {
    hide Xor, Not, Bit, Unbit, Step32, WordBytes, FeedBytes;
    var c := FeedBytes(Not(previous), before);
    var r := Unfeed(Not(target), Bits(after));
    FeedUnfeed(Not(target), Bits(after));
    var w := Xor(c, Unstep32(r));
    forall bytes: seq<bv8> | |bytes| == 4
      ensures Crc(previous, before + bytes + after) == target <==> bytes == WordBytes(w)
    {
      FeedBytesAppend(Not(previous), before + bytes, after);
      FeedBytesAppend(Not(previous), before, bytes);
      CrcFeedsBytes(previous, before + bytes + after);
      FeedBytesIsFeed(FeedBytes(c, bytes), after);
      FeedBytesIsFeed(r, after);
      NotNot(target);
      FeedWordBytes(c, w);
      XorLaws(c, Unstep32(r), 0);
      XorLaws(c, c, Unstep32(r));
      XorLaws(Unstep32(r), 0, 0);
      Step32Unstep32(r);
      assert FeedBytes(c, WordBytes(w)) == r;
      if Crc(previous, before + bytes + after) == target {
        NotInjective(FeedBytes(FeedBytes(c, bytes), after), Not(target));
        FeedInjective(FeedBytes(c, bytes), r, Bits(after));
        FourBytesInjective(c, bytes, WordBytes(w));
      }
    }
  }

  lemma FeedBytesIsFeed(c: bv32, message: seq<bv8>)
    ensures FeedBytes(c, message) == Feed(c, Bits(message))
  {
  }

  function Unstep8(c: bv32): bv32 {
    Unbit(Unbit(Unbit(Unbit(Unbit(Unbit(Unbit(Unbit(c))))))))
  }

  function Unstep32(c: bv32): bv32 {
    Unstep8(Unstep8(Unstep8(Unstep8(c))))
  }

  lemma Step8Unstep8(c: bv32)
    ensures Step8(Unstep8(c)) == c
  {
    hide Bit, Unbit;
    BitUnbit(c);
    BitUnbit(Unbit(c));
    BitUnbit(Unbit(Unbit(c)));
    BitUnbit(Unbit(Unbit(Unbit(c))));
    BitUnbit(Unbit(Unbit(Unbit(Unbit(c)))));
    BitUnbit(Unbit(Unbit(Unbit(Unbit(Unbit(c))))));
    BitUnbit(Unbit(Unbit(Unbit(Unbit(Unbit(Unbit(c)))))));
    BitUnbit(Unbit(Unbit(Unbit(Unbit(Unbit(Unbit(Unbit(c))))))));
  }

  lemma Step32Unstep32(c: bv32)
    ensures Step32(Unstep32(c)) == c
  {
    hide Step8, Unstep8;
    Step8Unstep8(c);
    Step8Unstep8(Unstep8(c));
    Step8Unstep8(Unstep8(Unstep8(c)));
    Step8Unstep8(Unstep8(Unstep8(Unstep8(c))));
  }

  // -------------------------------------------------------------------------------------------------------------
  // Error detection
  // -------------------------------------------------------------------------------------------------------------

  /** The byte whose bits are given. */
  function ByteOf(bits: seq<bool>): bv8
    requires |bits| == 8
  {
    (if bits[0] then 1 else 0) | (if bits[1] then 2 else 0) | (if bits[2] then 4 else 0) | (if bits[3] then 8 else 0) |
    (if bits[4] then 16 else 0) | (if bits[5] then 32 else 0) | (if bits[6] then 64 else 0) | (if bits[7] then 128 else 0)
  }

  lemma ByteBitsOfByte(bits: seq<bool>)
    requires |bits| == 8
    ensures ByteBits(ByteOf(bits)) == bits
  {
  }

  lemma ByteOfByteBits(b: bv8)
    ensures ByteOf(ByteBits(b)) == b
  {
  }

  lemma {:induction false} BitsInjective(a: seq<bv8>, b: seq<bv8>)
    requires |a| == |b| && Bits(a) == Bits(b)
    ensures a == b
  {
    hide ByteBits, ByteOf;
    if |a| > 0 {
      var n := |a| - 1;
      assert Bits(a)[..8 * n] == Bits(a[..n]) && Bits(b)[..8 * n] == Bits(b[..n]);
      BitsInjective(a[..n], b[..n]);
      assert Bits(a)[8 * n..] == ByteBits(a[n]) && Bits(b)[8 * n..] == ByteBits(b[n]);
      ByteOfByteBits(a[n]);
      ByteOfByteBits(b[n]);
      assert a == a[..n] + [a[n]] && b == b[..n] + [b[n]];
    }
  }

  function FourBytesOf(bits: seq<bool>): (bytes: seq<bv8>)
    requires |bits| == 32
    ensures |bytes| == 4
  {
    [ByteOf(bits[..8])] + ([ByteOf(bits[8..16])] + ([ByteOf(bits[16..24])] + ([ByteOf(bits[24..])] + [])))
  }

  lemma BitsOfOneByte(b: bv8)
    ensures Bits([b]) == ByteBits(b)
  {
    hide ByteBits;
    assert [b][..0] == [] && Bits([]) == [];
  }

  lemma PrependByte(bits: seq<bool>, bytes: seq<bv8>)
    requires |bits| == 8
    ensures Bits([ByteOf(bits)] + bytes) == bits + Bits(bytes)
  {
    ByteBitsOfByte(bits);
    hide ByteBits, ByteOf;
    BitsOfOneByte(ByteOf(bits));
    BitsAppend([ByteOf(bits)], bytes);
  }

  lemma BitsOfFourBytes(bits: seq<bool>)
    requires |bits| == 32
    ensures Bits(FourBytesOf(bits)) == bits
  {
    hide ByteBits, ByteOf;
    var p, q, r, s := bits[..8], bits[8..16], bits[16..24], bits[24..];
    PrependByte(p, [ByteOf(q)] + ([ByteOf(r)] + ([ByteOf(s)] + [])));
    PrependByte(q, [ByteOf(r)] + ([ByteOf(s)] + []));
    PrependByte(r, [ByteOf(s)] + []);
    PrependByte(s, []);
    assert Bits([]) == [];
    assert bits == p + (q + (r + (s + [])));
  }

  /** Two windows of at most 32 bits that take one register to the same place are the same window. */
  lemma WindowInjective(c: bv32, a: seq<bool>, b: seq<bool>)
    requires |a| == |b| <= 32 && Feed(c, a) == Feed(c, b)
    ensures a == b
  {
    hide Xor, Bit;
    var pad := seq(32 - |a|, _ => false);
    FeedAppend(c, a, pad);
    FeedAppend(c, b, pad);
    BitsOfFourBytes(a + pad);
    BitsOfFourBytes(b + pad);
    FourBytesInjective(c, FourBytesOf(a + pad), FourBytesOf(b + pad));
    assert a + pad == b + pad;
    assert a == (a + pad)[..|a|] && b == (b + pad)[..|a|];
  }

  /** Bit strings with one prefix and one suffix that reach the same register agree in a window of at most 32 bits. */
  lemma WindowAgrees(c: bv32, prefix: seq<bool>, a: seq<bool>, b: seq<bool>, suffix: seq<bool>)
    requires |a| == |b| <= 32 && Feed(c, prefix + a + suffix) == Feed(c, prefix + b + suffix)
    ensures a == b
  {
    hide Xor, Bit;
    FeedAppend(c, prefix + a, suffix);
    FeedAppend(c, prefix + b, suffix);
    FeedInjective(Feed(c, prefix + a), Feed(c, prefix + b), suffix);
    FeedAppend(c, prefix, a);
    FeedAppend(c, prefix, b);
    WindowInjective(Feed(c, prefix), a, b);
  }

  /** Two strings that agree outside a window of 32 places, cut at the ends of the window. */
  lemma CutAtWindow(x: seq<bool>, y: seq<bool>, at: nat) returns (lo: nat, hi: nat)
    requires |x| == |y|
    requires forall k | 0 <= k < |x| && !(at <= k < at + 32) :: x[k] == y[k]
    ensures lo <= hi <= |x| && hi - lo <= 32
    ensures x == x[..lo] + x[lo..hi] + x[hi..] && y == x[..lo] + y[lo..hi] + x[hi..]
  {
    lo, hi := if at < |x| then at else |x|, if at + 32 < |x| then at + 32 else |x|;
    assert x[..lo] == y[..lo] && x[hi..] == y[hi..];
  }

  /** Bit strings that agree outside a window of 32 bits and reach the same register are the same string. */
  lemma AgreeingBits(c: bv32, x: seq<bool>, y: seq<bool>, at: nat)
    requires |x| == |y| && Feed(c, x) == Feed(c, y)
    requires forall k | 0 <= k < |x| && !(at <= k < at + 32) :: x[k] == y[k]
    ensures x == y
  {
    var lo, hi := CutAtWindow(x, y, at);
    WindowAgrees(c, x[..lo], x[lo..hi], y[lo..hi], x[hi..]);
  }

  /** Two different messages of one length whose bits agree outside a window of 32 consecutive bits, anywhere in the
      message, never have the same checksum. */
  lemma BurstDetected(previous: bv32, a: seq<bv8>, b: seq<bv8>, at: nat)
    requires |a| == |b| && a != b
    requires forall k | 0 <= k < 8 * |a| && !(at <= k < at + 32) :: Bits(a)[k] == Bits(b)[k]
    ensures Crc(previous, a) != Crc(previous, b)
  {
    hide Xor, Bit, Not;
    if Crc(previous, a) == Crc(previous, b) {
      NotInjective(Feed(Not(previous), Bits(a)), Feed(Not(previous), Bits(b)));
      AgreeingBits(Not(previous), Bits(a), Bits(b), at);
      BitsInjective(a, b);
      assert false;
    }
  }

  // -------------------------------------------------------------------------------------------------------------
  // The half-byte method
  // -------------------------------------------------------------------------------------------------------------

  /** The half-byte look-up table: the first number of every second printed line of row 0. */
  function HalfByteLookup(j: bv8): bv32
    requires j < 16
  {
    Lookup(0, j << 4)
  }

  /** The sixteen entries that the comment at the head of the table names. */
  lemma HalfByteEntries()
    ensures HalfByteLookup(0) == 0x00000000 && HalfByteLookup(1) == 0x1DB71064
    ensures HalfByteLookup(2) == 0x3B6E20C8 && HalfByteLookup(3) == 0x26D930AC
    ensures HalfByteLookup(4) == 0x76DC4190 && HalfByteLookup(5) == 0x6B6B51F4
    ensures HalfByteLookup(6) == 0x4DB26158 && HalfByteLookup(7) == 0x5005713C
    ensures HalfByteLookup(8) == 0xEDB88320 && HalfByteLookup(9) == 0xF00F9344
    ensures HalfByteLookup(10) == 0xD6D6A3E8 && HalfByteLookup(11) == 0xCB61B38C
    ensures HalfByteLookup(12) == 0x9B64C2B0 && HalfByteLookup(13) == 0x86D3D2D4
    ensures HalfByteLookup(14) == 0xA00AE278 && HalfByteLookup(15) == 0xBDBDF21C
  {
  }

  function LowNibble(b: bv8): bv8 { b & 0xF }

  function HighNibble(b: bv8): bv8 { b >> 4 }

  function HalfByteStep(c: bv32, nibble: bv8): bv32
  {
    Xor(c >> 4, HalfByteLookup(LowNibble(LowByte(c) ^ nibble)))
  }

  /** The register after a message, two table look-ups a byte. */
  function HalfByteFeed(c: bv32, message: seq<bv8>): bv32 {
    if |message| == 0 then c else
      var b := message[|message| - 1];
      HalfByteStep(HalfByteStep(HalfByteFeed(c, message[..|message| - 1]), LowNibble(b)), HighNibble(b))
  }

  function HalfByteCrc(previous: bv32, message: seq<bv8>): bv32 {
    Not(HalfByteFeed(Not(previous), message))
  }

  function Step4(c: bv32): bv32 {
    Bit(Bit(Bit(Bit(c))))
  }

  lemma Step4Xor(a: bv32, b: bv32)
    ensures Step4(Xor(a, b)) == Xor(Step4(a), Step4(b))
  {
    hide Xor, Bit;
    BitXor(a, b);
    BitXor(Bit(a), Bit(b));
    BitXor(Bit(Bit(a)), Bit(Bit(b)));
    BitXor(Bit(Bit(Bit(a))), Bit(Bit(Bit(b))));
  }

  function Nibbled(w: bv32): bv32 { w >> 4 }

  lemma Step4OfClear(w: bv32)
    requires Clear(w, 0xF)
    ensures Step4(w) == Nibbled(w)
  {
    FourHalves(w);
    hide Bit, Half, Clear, Nibbled;
    StepClear(w, 0xF);
    StepClear(Half(w), 0x7);
    StepClear(Half(Half(w)), 0x3);
    StepClear(Half(Half(Half(w))), 0x1);
  }

  lemma FourHalves(w: bv32)
    ensures Half(Half(Half(Half(w)))) == Nibbled(w)
  {
  }

  lemma HalfByteEntry(j: bv8)
    requires j < 16
    ensures HalfByteLookup(j) == Step4(Widen(j))
  {
    assert Clear(Widen(j << 4), 0xF) && Nibbled(Widen(j << 4)) == Widen(j);
    Row0Steps(j << 4);
    assert Widen(j << 4) == (j << 4) as bv32;
    hide Bit, Row0, Clear, Nibbled, Widen;
    Step4OfClear(Widen(j << 4));
  }

  lemma LowNibbleIsSmall(b: bv8)
    ensures LowNibble(b) < 16
  {
  }

  lemma HighPart(w: bv32)
    ensures Clear(w & 0xFFFFFFF0, 0xF) && Nibbled(w & 0xFFFFFFF0) == w >> 4
  {
  }

  lemma SumInLowNibble(w: bv32, n: bv32)
    requires n < 16
    ensures w ^ n == (w & 0xFFFFFFF0) ^ ((w ^ n) & 0xF)
  {
  }

  lemma LowNibbleOfSum(w: bv32, nibble: bv8)
    ensures Widen(LowNibble(LowByte(w) ^ nibble)) == (w ^ Widen(nibble)) & 0xF
  {
  }

  lemma NibbleSum(w: bv32, nibble: bv8)
    requires nibble < 16
    ensures Xor(w, Widen(nibble)) == Xor(w & 0xFFFFFFF0, Widen(LowNibble(LowByte(w) ^ nibble)))
  {
    assert Widen(nibble) < 16;
    hide Widen, LowNibble, LowByte;
    SumInLowNibble(w, Widen(nibble));
    LowNibbleOfSum(w, nibble);
  }

  lemma SplitNibble(w: bv32, nibble: bv8)
    requires nibble < 16
    ensures var low := LowNibble(LowByte(w) ^ nibble);
      && low < 16 && Xor(w, Widen(nibble)) == Xor(w & 0xFFFFFFF0, Widen(low))
      && Clear(w & 0xFFFFFFF0, 0xF) && Nibbled(w & 0xFFFFFFF0) == w >> 4
  {
    hide Xor, Widen, LowNibble, LowByte, Clear, Nibbled;
    LowNibbleIsSmall(LowByte(w) ^ nibble);
    HighPart(w);
    NibbleSum(w, nibble);
  }

  lemma HalfByteStepIsStep4(c: bv32, nibble: bv8)
    requires nibble < 16
    ensures HalfByteStep(c, nibble) == Step4(Xor(c, Widen(nibble)))
  {
    var low := LowNibble(LowByte(c) ^ nibble);
    SplitNibble(c, nibble);
    hide Bit, Xor, Clear, Widen, LowNibble, LowByte, HalfByteLookup, Step4, Nibbled;
    Step4Xor(c & 0xFFFFFFF0, Widen(low));
    Step4OfClear(c & 0xFFFFFFF0);
    HalfByteEntry(low);
  }

  lemma SplitByte(b: bv8)
    ensures LowNibble(b) < 16 && HighNibble(b) < 16
    ensures Clear(Widen(b) & 0xF0, 0xF) && Nibbled(Widen(b) & 0xF0) == Widen(HighNibble(b))
    ensures Xor(Widen(LowNibble(b)), Widen(b) & 0xF0) == Widen(b)
  {
  }

  lemma TwoNibblesFeedByte(c: bv32, b: bv8)
    ensures LowNibble(b) < 16 && HighNibble(b) < 16
    ensures HalfByteStep(HalfByteStep(c, LowNibble(b)), HighNibble(b)) == Step8(Xor(c, Widen(b)))
  {
    SplitByte(b);
    hide Bit, Xor, Clear, Widen, LowNibble, HighNibble, HalfByteStep, Nibbled;
    var lo, rest := Widen(LowNibble(b)), Widen(b) & 0xF0;
    HalfByteStepIsStep4(c, LowNibble(b));
    HalfByteStepIsStep4(Step4(Xor(c, lo)), HighNibble(b));
    XorLaws(c, lo, rest);
    Step4Xor(Xor(c, lo), rest);
    Step4OfClear(rest);
  }

  lemma {:induction false} HalfByteFeedIsFeed(c: bv32, message: seq<bv8>)
    ensures HalfByteFeed(c, message) == FeedBytes(c, message)
  {
    hide Bit, Xor, Step8, Widen, LowNibble, HighNibble, HalfByteStep, FeedBytes;
    if |message| == 0 {
      NothingFed(c);
    } else {
      var init, b := message[..|message| - 1], message[|message| - 1];
      HalfByteFeedIsFeed(c, init);
      assert init + [b] == message;
      FeedBytesAppend(c, init, [b]);
      FeedOneByte(FeedBytes(c, init), b);
      TwoNibblesFeedByte(FeedBytes(c, init), b);
    }
  }

  /** Sixteen entries of row 0 are enough: the half-byte method computes the same checksum. */
  lemma HalfByteAgrees(previous: bv32, message: seq<bv8>)
    ensures HalfByteCrc(previous, message) == Crc(previous, message)
  {
    hide Not, HalfByteFeed, FeedBytes;
    HalfByteFeedIsFeed(Not(previous), message);
    CrcFeedsBytes(previous, message);
  }

  // -------------------------------------------------------------------------------------------------------------
  // The check value
  // -------------------------------------------------------------------------------------------------------------

  lemma CheckStep(c: bv32, b: bv8, d: bv32)
    requires Xor(Tail(c), Row0(LowByte(c) ^ b)) == d
    ensures FeedBytes(c, [b]) == d
  {
    TailByteFeeds(c, b);
  }

  lemma FeedNext(c: bv32, b: bv8, d: bv32, more: seq<bv8>)
    requires FeedBytes(c, [b]) == d
    ensures FeedBytes(c, [b] + more) == FeedBytes(d, more)
  {
    FeedBytesAppend(c, [b], more);
  }

  lemma CheckFrontDigits()
    ensures FeedBytes(0xFFFFFFFF, [49, 50, 51, 52, 53, 54, 55, 56, 57]) == FeedBytes(0x340AC5E3, [54, 55, 56, 57])
  {
    hide FeedBytes;
    CheckStep(0xFFFFFFFF, 49, 0x7C231048);
    CheckStep(0x7C231048, 50, 0xB0ACBB32);
    CheckStep(0xB0ACBB32, 51, 0x77B79C2D);
    CheckStep(0x77B79C2D, 52, 0x641C1F5C);
    CheckStep(0x641C1F5C, 53, 0x340AC5E3);
    var m0: seq<bv8> := [49, 50, 51, 52, 53, 54, 55, 56, 57];
    var m1: seq<bv8> := [50, 51, 52, 53, 54, 55, 56, 57];
    FeedNext(0xFFFFFFFF, 49, 0x7C231048, m1);
    assert [49] + m1 == m0;
    var m2: seq<bv8> := [51, 52, 53, 54, 55, 56, 57];
    FeedNext(0x7C231048, 50, 0xB0ACBB32, m2);
    assert [50] + m2 == m1;
    var m3: seq<bv8> := [52, 53, 54, 55, 56, 57];
    FeedNext(0xB0ACBB32, 51, 0x77B79C2D, m3);
    assert [51] + m3 == m2;
    var m4: seq<bv8> := [53, 54, 55, 56, 57];
    FeedNext(0x77B79C2D, 52, 0x641C1F5C, m4);
    assert [52] + m4 == m3;
    var m5: seq<bv8> := [54, 55, 56, 57];
    FeedNext(0x641C1F5C, 53, 0x340AC5E3, m5);
    assert [53] + m5 == m4;
  }

  lemma CheckBackDigits()
    ensures FeedBytes(0x340AC5E3, [54, 55, 56, 57]) == 0x340BC6D9
  {
    hide FeedBytes;
    CheckStep(0x340AC5E3, 54, 0xF68D2C9E);
    CheckStep(0xF68D2C9E, 55, 0xAFFC9660);
    CheckStep(0xAFFC9660, 56, 0x651F2550);
    CheckStep(0x651F2550, 57, 0x340BC6D9);
    var m5: seq<bv8> := [54, 55, 56, 57];
    var m6: seq<bv8> := [55, 56, 57];
    FeedNext(0x340AC5E3, 54, 0xF68D2C9E, m6);
    assert [54] + m6 == m5;
    var m7: seq<bv8> := [56, 57];
    FeedNext(0xF68D2C9E, 55, 0xAFFC9660, m7);
    assert [55] + m7 == m6;
    var m8: seq<bv8> := [57];
    FeedNext(0xAFFC9660, 56, 0x651F2550, m8);
    assert [56] + m8 == m7;
  }

  /** The published check value of this CRC: the checksum of the digits 1 to 9 in ASCII. */
  lemma CheckValue()
    ensures Crc(0, [49, 50, 51, 52, 53, 54, 55, 56, 57]) == 0xCBF43926
  {
    hide FeedBytes;
    CheckFrontDigits();
    CheckBackDigits();
    CrcFeedsBytes(0, [49, 50, 51, 52, 53, 54, 55, 56, 57]);
    assert Not(0) == 0xFFFFFFFF && Not(0x340BC6D9) == 0xCBF43926;
  }
}
