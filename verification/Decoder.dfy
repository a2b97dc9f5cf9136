/** The event decoder of the receiver: bit fields cut from 16-bit words and an XOR check byte. */
module Decoder {
  import opened Bits

  type Byte = b: nat | b < 256
  type Word = w: nat | w < 0x10000

  const EVENT_SIZE_BYTES := 16
  const EVENT_BITS := 96

  // ---- get_bits ----

  /** All the bits of a buffer, each word from its most significant bit. */
  function BitsOf(words: seq<Word>): (bits: seq<bool>)
    ensures |bits| == 16 * |words|
  {
    if words == [] then [] else BitsOf(words[..|words| - 1]) + ToBits(words[|words| - 1], 16)
  }

  lemma SliceOfLeft(a: seq<bool>, b: seq<bool>, i: nat, j: nat)
    requires i <= j <= |a|
    ensures (a + b)[i..j] == a[i..j]
  {
  }

  lemma SliceOfRight(a: seq<bool>, b: seq<bool>)
    ensures (a + b)[|a|..|a| + |b|] == b
  {
  }

  lemma {:induction false} WordOfBits(words: seq<Word>, k: nat)
    requires k < |words|
    ensures BitsOf(words)[16 * k..16 * k + 16] == ToBits(words[k], 16)
  {
    var n := |words| - 1;
    var before, last := BitsOf(words[..n]), ToBits(words[n], 16);
    if k < n {
      WordOfBits(words[..n], k);
      SliceOfLeft(before, last, 16 * k, 16 * k + 16);
    } else {
      SliceOfRight(before, last);
    }
  }

  lemma BitOfNumber(v: nat, n: nat, r: nat)
    requires r < n && v < Pow2(n)
    ensures v / Pow2(n - 1 - r) % 2 == Bit(ToBits(v, n)[r])
  {
    var bits := ToBits(v, n);
    ValueOfToBits(v, n);
    ShiftRight(bits, n - 1 - r);
    LastBit(bits[..r + 1]);
  }

  /** One bit, as the shift and mask of the loop read it. */
  lemma BitOfWord(w: Word, r: nat)
    requires r < 16
    ensures w / Pow2(15 - r) % 2 == Bit(ToBits(w, 16)[r])
  {
    PowersOfTwo();
    BitOfNumber(w, 16, r);
  }

  /** `(w >> k) & 1`. */
  function ShiftAndMask(w: Word, k: nat): nat {
    w / Pow2(k) % 2
  }

  lemma ReadBit(words: seq<Word>, i: nat)
    requires i < 16 * |words|
    ensures ShiftAndMask(words[i / 16], 15 - i % 16) == Bit(BitsOf(words)[i])
  {
    WordOfBits(words, i / 16);
    BitOfWord(words[i / 16], i % 16);
    assert BitsOf(words)[i] == BitsOf(words)[16 * (i / 16)..16 * (i / 16) + 16][i % 16];
  }

  /** get_bits is the MSB-first value of the slice; 32 bits are enough for it. */
  method GetBits(buffer: seq<Word>, bitOffset: nat, numBits: nat) returns (result: nat)
    requires bitOffset + numBits <= 16 * |buffer| && numBits <= 32
    ensures result == Value(BitsOf(buffer)[bitOffset..bitOffset + numBits])
    ensures result < Pow2(numBits)
  {
    result := 0;
    ghost var bits := BitsOf(buffer);
    for i := 0 to numBits
      invariant result == Value(bits[bitOffset..bitOffset + i])
    {
      var currentBit := bitOffset + i;
      var wordIndex := currentBit / 16;
      var bitInWord := 15 - currentBit % 16;
      ReadBit(buffer, currentBit);
      ValueOfSlice(bits, bitOffset, i);
      var bitValue := ShiftAndMask(buffer[wordIndex], bitInWord);
      result := result * 2 + bitValue;
    }
  }

  // ---- check_crc ----

  function XorBits(a: seq<bool>, b: seq<bool>): (x: seq<bool>)
    requires |a| == |b|
    ensures |x| == |a|
  {
    seq(|a|, i requires 0 <= i < |a| => a[i] != b[i])
  }

  /** Exclusive or of two bytes. */
  function Xor(a: Byte, b: Byte): (x: nat)
    ensures x < 256
  {
    PowersOfTwo();
    Value(XorBits(ToBits(a, 8), ToBits(b, 8)))
  }

  function ByteAt(bits: seq<bool>, k: nat): seq<bool>
    requires 8 * k + 8 <= |bits|
  {
    bits[8 * k..8 * k + 8]
  }

  /** Parity of bit `j` over the first `n` bytes. */
  predicate Odd(bits: seq<bool>, j: nat, n: nat)
    requires j < 8 && 8 * n <= |bits|
  {
    if n == 0 then false else Odd(bits, j, n - 1) != bits[8 * (n - 1) + j]
  }

  /** The check: over the 11 bytes and their check byte, every bit is set an even number of times. */
  ghost predicate Checked(bits: seq<bool>)
    requires |bits| == EVENT_BITS
  {
    forall j | 0 <= j < 8 :: !Odd(bits, j, 12)
  }

  function Parities(bits: seq<bool>, n: nat): (p: seq<bool>)
    requires 8 * n <= |bits|
    ensures |p| == 8
  {
    seq(8, j requires 0 <= j < 8 => Odd(bits, j, n))
  }

  lemma ParitiesStep(bits: seq<bool>, k: nat)
    requires 8 * k + 8 <= |bits|
    ensures Parities(bits, k + 1) == XorBits(Parities(bits, k), ByteAt(bits, k))
  {
  }

  lemma NoParities(bits: seq<bool>)
    ensures ToBits(0, 8) == Parities(bits, 0)
  {
    assert ToBits(0, 4) == [false, false, false, false];
    assert ToBits(0, 7) == [false, false, false, false, false, false, false];
  }

  lemma XorStep(crc: Byte, value: Byte, bits: seq<bool>, k: nat)
    requires 8 * k + 8 <= |bits|
    requires ToBits(crc, 8) == Parities(bits, k) && value == Value(ByteAt(bits, k))
    ensures ToBits(Xor(crc, value), 8) == Parities(bits, k + 1)
  {
    ToBitsOfValue(ByteAt(bits, k));
    ToBitsOfValue(XorBits(ToBits(crc, 8), ToBits(value, 8)));
    ParitiesStep(bits, k);
  }

  lemma CheckedMeansEqual(bits: seq<bool>)
    requires |bits| == EVENT_BITS
    ensures Checked(bits) <==> ByteAt(bits, 11) == Parities(bits, 11)
  {
    assert forall j | 0 <= j < 8 :: Odd(bits, j, 12) == (Odd(bits, j, 11) != ByteAt(bits, 11)[j]);
    if ByteAt(bits, 11) == Parities(bits, 11) {
      assert forall j | 0 <= j < 8 :: ByteAt(bits, 11)[j] == Parities(bits, 11)[j];
    } else {
      var j :| 0 <= j < 8 && ByteAt(bits, 11)[j] != Parities(bits, 11)[j];
      assert Odd(bits, j, 12);
    }
  }

  method ComputeCrc(buffer: seq<Word>) returns (crc: Byte)
    requires |buffer| == 6
    ensures ToBits(crc, 8) == Parities(BitsOf(buffer), 11)
  {
    ghost var bits := BitsOf(buffer);
    crc := 0;
    NoParities(bits);
    for k := 0 to 11
      invariant ToBits(crc, 8) == Parities(bits, k)
    {
      var value := GetBits(buffer, 8 * k, 8);
      PowersOfTwo();
      XorStep(crc, value, bits, k);
      crc := Xor(crc, value);
    }
  }

  /** check_crc: 0 when the check byte matches. */
  method CheckCrc(buffer: seq<Word>) returns (status: int)
    requires |buffer| == 6
    ensures status == 0 <==> Checked(BitsOf(buffer))
    ensures status in {0, 1}
  {
    ghost var bits := BitsOf(buffer);
    var received := GetBits(buffer, 88, 8);
    var computed := ComputeCrc(buffer);
    status := if received == computed then 0 else 1;
    ToBitsOfValue(ByteAt(bits, 11));
    PowersOfTwo();
    ValueOfToBits(computed, 8);
    CheckedMeansEqual(bits);
  }

  // ---- corruption ----

  lemma {:induction false} OneByteFlipsParity(a: seq<bool>, b: seq<bool>, m: nat, j: nat, n: nat)
    requires |a| == |b| && 8 * n <= |a| && j < 8 && 8 * m + 8 <= |a|
    requires forall i | 0 <= i < |a| && !(8 * m <= i < 8 * m + 8) :: a[i] == b[i]
    ensures Odd(a, j, n) != Odd(b, j, n) <==> m < n && a[8 * m + j] != b[8 * m + j]
  {
    if n > 0 {
      OneByteFlipsParity(a, b, m, j, n - 1);
    }
  }

  /** Any change confined to one of the twelve checked bytes of an accepted event is rejected. */
  lemma CorruptedByteIsRejected(a: seq<bool>, b: seq<bool>, m: nat)
    requires |a| == |b| == EVENT_BITS && m < 12
    requires forall i | 0 <= i < EVENT_BITS && !(8 * m <= i < 8 * m + 8) :: a[i] == b[i]
    requires Checked(a) && a != b
    ensures !Checked(b)
  {
    var i :| 0 <= i < EVENT_BITS && a[i] != b[i];
    OneByteFlipsParity(a, b, m, i - 8 * m, 12);
  }

  // ---- the fields of an event ----

  datatype Fields = Fields(
    channel: nat,
    time16: nat,
    coarse: nat,
    tot: nat,
    triggerEnd: nat,
    tdc: nat,
    energy: nat)

  ghost predicate InRange(f: Fields) {
    && f.channel < 32 && f.time16 < 0x1_0000 && f.coarse < 0x1000_0000
    && f.tot < 64 && f.triggerEnd < 32 && f.tdc < 32 && f.energy < 0x4000
  }

  /** The fields as the receiver cuts them; the coarse time comes in three parts. */
  function FieldsOf(bits: seq<bool>): Fields
    requires |bits| == EVENT_BITS
  {
    Fields(
      Value(bits[3..8]),
      Value(bits[8..24]),
      Value(bits[24..32]) * 0x10_0000 + Value(bits[33..40]) * 0x2000 + Value(bits[40..53]),
      Value(bits[53..59]),
      Value(bits[59..64]),
      Value(bits[69..74]),
      Value(bits[74..88]))
  }

  /** The three shifted parts of the coarse time do not overlap, so their bitwise or is their sum. */
  method DecodeFields(buffer: seq<Word>) returns (f: Fields)
    requires |buffer| == 6
    ensures f == FieldsOf(BitsOf(buffer))
  {
    var channel := GetBits(buffer, 3, 5);
    var time16 := GetBits(buffer, 8, 16);
    var high := GetBits(buffer, 24, 8);
    var middle := GetBits(buffer, 33, 7);
    var low := GetBits(buffer, 40, 13);
    var tot := GetBits(buffer, 53, 6);
    var triggerEnd := GetBits(buffer, 59, 5);
    var tdc := GetBits(buffer, 69, 5);
    var energy := GetBits(buffer, 74, 14);
    f := Fields(channel, time16, high * 0x10_0000 + middle * 0x2000 + low, tot, triggerEnd, tdc, energy);
  }

  /** The bits that are not part of any field: 3 + 1 + 5 of them, and the check byte. */
  datatype Frame = Frame(head: seq<bool>, middle: bool, tail: seq<bool>, check: seq<bool>)

  ghost predicate WellFormed(frame: Frame) {
    |frame.head| == 3 && |frame.tail| == 5 && |frame.check| == 8
  }

  function FrameOf(bits: seq<bool>): Frame
    requires |bits| == EVENT_BITS
  {
    Frame(bits[0..3], bits[32], bits[64..69], bits[88..96])
  }

  function PackHead(f: Fields, frame: Frame): (bits: seq<bool>)
    requires WellFormed(frame)
    ensures |bits| == 24
  {
    frame.head + ToBits(f.channel, 5) + ToBits(f.time16, 16)
  }

  function PackCoarse(f: Fields, frame: Frame): (bits: seq<bool>)
    ensures |bits| == 29
  {
    ToBits(f.coarse / 0x10_0000, 8) + [frame.middle] + ToBits(f.coarse / 0x2000 % 128, 7) + ToBits(f.coarse % 0x2000, 13)
  }

  function PackWidths(f: Fields): (bits: seq<bool>)
    ensures |bits| == 11
  {
    ToBits(f.tot, 6) + ToBits(f.triggerEnd, 5)
  }

  function PackTail(f: Fields, frame: Frame): (bits: seq<bool>)
    requires WellFormed(frame)
    ensures |bits| == 32
  {
    frame.tail + ToBits(f.tdc, 5) + ToBits(f.energy, 14) + frame.check
  }

  /** The event a board would send for these fields. */
  function Pack(f: Fields, frame: Frame): (bits: seq<bool>)
    requires WellFormed(frame)
    ensures |bits| == EVENT_BITS
  {
    PackHead(f, frame) + PackCoarse(f, frame) + PackWidths(f) + PackTail(f, frame)
  }

  /** The three parts are one 28-bit number: nothing of it is lost or overlaps. */
  lemma CoarseTimeIsLossless(bits: seq<bool>)
    requires |bits| == EVENT_BITS
    ensures FieldsOf(bits).coarse == Value(bits[24..32] + bits[33..40] + bits[40..53])
    ensures InRange(FieldsOf(bits))
  {
    PowersOfTwo();
    ValueOfConcat(bits[24..32], bits[33..40]);
    ValueOfConcat(bits[24..32] + bits[33..40], bits[40..53]);
  }

  lemma PartsOfPack(f: Fields, frame: Frame)
    requires WellFormed(frame)
    ensures var bits := Pack(f, frame);
            && bits[0..24] == PackHead(f, frame)
            && bits[24..53] == PackCoarse(f, frame)
            && bits[53..64] == PackWidths(f)
            && bits[64..96] == PackTail(f, frame)
  {
  }

  lemma HeadOfPack(f: Fields, frame: Frame)
    requires InRange(f) && WellFormed(frame)
    ensures var bits := Pack(f, frame);
            bits[0..3] == frame.head && Value(bits[3..8]) == f.channel && Value(bits[8..24]) == f.time16
  {
    PartsOfPack(f, frame);
    PowersOfTwo();
    var bits, part := Pack(f, frame), PackHead(f, frame);
    assert bits[0..3] == bits[0..24][0..3] == part[0..3];
    assert bits[3..8] == bits[0..24][3..8] == part[3..8] == ToBits(f.channel, 5);
    assert bits[8..24] == bits[0..24][8..24] == part[8..24] == ToBits(f.time16, 16);
    ValueOfToBits(f.channel, 5);
    ValueOfToBits(f.time16, 16);
  }

  lemma CoarseParts(c: nat, high: nat, middle: nat, low: nat)
    requires middle < 128 && low < 0x2000
    ensures c == high * 0x10_0000 + middle * 0x2000 + low <==>
            high == c / 0x10_0000 && middle == c / 0x2000 % 128 && low == c % 0x2000
  {
    var h := c / 0x2000;
    assert c == h * 0x2000 + c % 0x2000;
    assert h == h / 128 * 128 + h % 128;
    assert c / 0x10_0000 == h / 128;
  }

  lemma CoarseOfPack(f: Fields, frame: Frame)
    requires InRange(f) && WellFormed(frame)
    ensures var bits := Pack(f, frame);
            bits[32] == frame.middle && FieldsOf(bits).coarse == f.coarse
  {
    PartsOfPack(f, frame);
    PowersOfTwo();
    var bits, part := Pack(f, frame), PackCoarse(f, frame);
    assert bits[32] == bits[24..53][8] == part[8];
    assert bits[24..32] == bits[24..53][0..8] == part[0..8] == ToBits(f.coarse / 0x10_0000, 8);
    assert bits[33..40] == bits[24..53][9..16] == part[9..16] == ToBits(f.coarse / 0x2000 % 128, 7);
    assert bits[40..53] == bits[24..53][16..29] == part[16..29] == ToBits(f.coarse % 0x2000, 13);
    ValueOfToBits(f.coarse / 0x10_0000, 8);
    ValueOfToBits(f.coarse / 0x2000 % 128, 7);
    ValueOfToBits(f.coarse % 0x2000, 13);
    CoarseParts(f.coarse, f.coarse / 0x10_0000, f.coarse / 0x2000 % 128, f.coarse % 0x2000);
  }

  lemma WidthsOfPack(f: Fields, frame: Frame)
    requires InRange(f) && WellFormed(frame)
    ensures var bits := Pack(f, frame);
            Value(bits[53..59]) == f.tot && Value(bits[59..64]) == f.triggerEnd
  {
    PartsOfPack(f, frame);
    PowersOfTwo();
    var bits, part := Pack(f, frame), PackWidths(f);
    assert bits[53..59] == bits[53..64][0..6] == part[0..6] == ToBits(f.tot, 6);
    assert bits[59..64] == bits[53..64][6..11] == part[6..11] == ToBits(f.triggerEnd, 5);
    ValueOfToBits(f.tot, 6);
    ValueOfToBits(f.triggerEnd, 5);
  }

  lemma TailOfPack(f: Fields, frame: Frame)
    requires InRange(f) && WellFormed(frame)
    ensures var bits := Pack(f, frame);
            && bits[64..69] == frame.tail && bits[88..96] == frame.check
            && Value(bits[69..74]) == f.tdc && Value(bits[74..88]) == f.energy
  {
    PartsOfPack(f, frame);
    PowersOfTwo();
    var bits, part := Pack(f, frame), PackTail(f, frame);
    assert bits[64..69] == bits[64..96][0..5] == part[0..5];
    assert bits[69..74] == bits[64..96][5..10] == part[5..10] == ToBits(f.tdc, 5);
    assert bits[74..88] == bits[64..96][10..24] == part[10..24] == ToBits(f.energy, 14);
    assert bits[88..96] == bits[64..96][24..32] == part[24..32];
    ValueOfToBits(f.tdc, 5);
    ValueOfToBits(f.energy, 14);
  }

  /** Packing then decoding returns every field, whatever surrounds them. */
  lemma FieldsOfPack(f: Fields, frame: Frame)
    requires InRange(f) && WellFormed(frame)
    ensures FieldsOf(Pack(f, frame)) == f
    ensures FrameOf(Pack(f, frame)) == frame
  {
    HeadOfPack(f, frame);
    CoarseOfPack(f, frame);
    WidthsOfPack(f, frame);
    TailOfPack(f, frame);
  }

  lemma SplitAt(bits: seq<bool>, i: nat, j: nat, k: nat)
    requires i <= j <= k <= |bits|
    ensures bits[i..k] == bits[i..j] + bits[j..k]
  {
  }

  lemma RepackHead(bits: seq<bool>)
    requires |bits| == EVENT_BITS
    ensures PackHead(FieldsOf(bits), FrameOf(bits)) == bits[0..24]
  {
    ToBitsOfValue(bits[3..8]);
    ToBitsOfValue(bits[8..24]);
    SplitAt(bits, 0, 3, 8);
    SplitAt(bits, 0, 8, 24);
  }

  lemma RepackCoarse(bits: seq<bool>)
    requires |bits| == EVENT_BITS
    ensures PackCoarse(FieldsOf(bits), FrameOf(bits)) == bits[24..53]
  {
    PowersOfTwo();
    CoarseParts(FieldsOf(bits).coarse, Value(bits[24..32]), Value(bits[33..40]), Value(bits[40..53]));
    ToBitsOfValue(bits[24..32]);
    ToBitsOfValue(bits[33..40]);
    ToBitsOfValue(bits[40..53]);
    SplitAt(bits, 24, 32, 33);
    SplitAt(bits, 24, 33, 40);
    SplitAt(bits, 24, 40, 53);
    assert bits[32..33] == [bits[32]];
  }

  lemma RepackWidths(bits: seq<bool>)
    requires |bits| == EVENT_BITS
    ensures PackWidths(FieldsOf(bits)) == bits[53..64]
  {
    ToBitsOfValue(bits[53..59]);
    ToBitsOfValue(bits[59..64]);
    SplitAt(bits, 53, 59, 64);
  }

  lemma RepackTail(bits: seq<bool>)
    requires |bits| == EVENT_BITS
    ensures PackTail(FieldsOf(bits), FrameOf(bits)) == bits[64..96]
  {
    ToBitsOfValue(bits[69..74]);
    ToBitsOfValue(bits[74..88]);
    SplitAt(bits, 64, 69, 74);
    SplitAt(bits, 64, 74, 88);
    SplitAt(bits, 64, 88, 96);
  }

  /** Decoding then packing returns the event: the fields and their frame hold all of it. */
  lemma PackOfFields(bits: seq<bool>)
    requires |bits| == EVENT_BITS
    ensures Pack(FieldsOf(bits), FrameOf(bits)) == bits
  {
    RepackHead(bits);
    RepackCoarse(bits);
    RepackWidths(bits);
    RepackTail(bits);
    assert bits == bits[0..24] + bits[24..53] + bits[53..64] + bits[64..96];
  }

  // ---- from the payload ----

  function LittleEndian(low: Byte, high: Byte): Word {
    var l: nat, h: nat := low, high;
    l + 256 * h
  }

  /** The six words decoded from an event, read in host (little-endian) order after the first two bytes. */
  function CutWords(event: seq<Byte>): (words: seq<Word>)
    requires |event| == EVENT_SIZE_BYTES
    ensures |words| == 6
  {
    seq(6, j requires 0 <= j < 6 => LittleEndian(event[2 * j + 2], event[2 * j + 3]))
  }

  function EventBits(event: seq<Byte>): (bits: seq<bool>)
    requires |event| == EVENT_SIZE_BYTES
    ensures |bits| == EVENT_BITS
  {
    BitsOf(CutWords(event))
  }

  lemma WordIsTwoBytes(low: Byte, high: Byte)
    ensures ToBits(LittleEndian(low, high), 16) == ToBits(high, 8) + ToBits(low, 8)
  {
    PowersOfTwo();
    ValueOfToBits(low, 8);
    ValueOfToBits(high, 8);
    ValueOfToBits(LittleEndian(low, high), 16);
    ValueOfConcat(ToBits(high, 8), ToBits(low, 8));
    ValueInjective(ToBits(LittleEndian(low, high), 16), ToBits(high, 8) + ToBits(low, 8));
  }

  /** The checked bytes are the payload bytes 2 to 13, swapped within each word. */
  lemma CheckedBytes(event: seq<Byte>, j: nat)
    requires |event| == EVENT_SIZE_BYTES && j < 6
    ensures ByteAt(EventBits(event), 2 * j) == ToBits(event[2 * j + 3], 8)
    ensures ByteAt(EventBits(event), 2 * j + 1) == ToBits(event[2 * j + 2], 8)
  {
    var words := CutWords(event);
    WordOfBits(words, j);
    WordIsTwoBytes(event[2 * j + 2], event[2 * j + 3]);
    var word := BitsOf(words)[16 * j..16 * j + 16];
    assert ByteAt(BitsOf(words), 2 * j) == word[0..8];
    assert ByteAt(BitsOf(words), 2 * j + 1) == word[8..16];
  }

  /** The payload byte behind each checked byte. */
  function PayloadIndex(k: nat): nat {
    if k % 2 == 0 then k + 3 else k + 1
  }

  lemma EventByte(event: seq<Byte>, k: nat)
    requires |event| == EVENT_SIZE_BYTES && k < 12
    ensures PayloadIndex(k) < EVENT_SIZE_BYTES
    ensures ByteAt(EventBits(event), k) == ToBits(event[PayloadIndex(k)], 8)
  {
    CheckedBytes(event, k / 2);
    assert k == 2 * (k / 2) || k == 2 * (k / 2) + 1;
  }

  lemma BitInByte(bits: seq<bool>, i: nat)
    requires |bits| == EVENT_BITS && i < EVENT_BITS
    ensures bits[i] == ByteAt(bits, i / 8)[i % 8]
  {
    var k, r := i / 8, i % 8;
    assert ByteAt(bits, k)[r] == bits[8 * k + r];
  }

  lemma SameBytesSameBits(a: seq<bool>, b: seq<bool>, m: nat)
    requires |a| == |b| == EVENT_BITS
    requires forall k | 0 <= k < 12 && k != m :: ByteAt(a, k) == ByteAt(b, k)
    ensures forall i | 0 <= i < EVENT_BITS && !(8 * m <= i < 8 * m + 8) :: a[i] == b[i]
  {
    forall i | 0 <= i < EVENT_BITS && !(8 * m <= i < 8 * m + 8)
      ensures a[i] == b[i]
    {
      BitInByte(a, i);
      BitInByte(b, i);
    }
  }

  lemma DifferentBytes(a: Byte, b: Byte)
    requires a != b
    ensures ToBits(a, 8) != ToBits(b, 8)
  {
    PowersOfTwo();
    ValueOfToBits(a, 8);
    ValueOfToBits(b, 8);
  }

  /** Corrupting any one of the payload bytes 2 to 13 of an accepted event makes the check fail. */
  lemma CorruptedPayloadIsRejected(event: seq<Byte>, m: nat, value: Byte)
    requires |event| == EVENT_SIZE_BYTES && m < 12 && PayloadIndex(m) < EVENT_SIZE_BYTES
    requires Checked(EventBits(event)) && value != event[PayloadIndex(m)]
    ensures !Checked(EventBits(event[PayloadIndex(m) := value]))
  {
    var changed := event[PayloadIndex(m) := value];
    var a, b := EventBits(event), EventBits(changed);
    forall k | 0 <= k < 12 && k != m
      ensures ByteAt(a, k) == ByteAt(b, k)
    {
      EventByte(event, k);
      EventByte(changed, k);
    }
    SameBytesSameBits(a, b, m);
    EventByte(event, m);
    EventByte(changed, m);
    DifferentBytes(event[PayloadIndex(m)], value);
    CorruptedByteIsRejected(a, b, m);
  }
}
