/** Bit strings, most significant bit first, and the numbers they stand for. */
module Bits {

  function Pow2(n: nat): (p: nat)
    ensures 0 < p
  {
    if n == 0 then 1 else 2 * Pow2(n - 1)
  }

  lemma PowersOfTwo()
    ensures Pow2(5) == 32 && Pow2(6) == 64 && Pow2(7) == 128 && Pow2(8) == 256
    ensures Pow2(13) == 0x2000 && Pow2(14) == 0x4000 && Pow2(16) == 0x1_0000
    ensures Pow2(20) == 0x10_0000 && Pow2(28) == 0x1000_0000
  {
    assert Pow2(4) == 16;
    assert Pow2(11) == 0x800;
    assert Pow2(18) == 0x4_0000;
    assert Pow2(22) == 0x40_0000 && Pow2(25) == 0x200_0000;
  }

  function Bit(b: bool): nat {
    if b then 1 else 0
  }

  function Value(bits: seq<bool>): (v: nat)
    ensures v < Pow2(|bits|)
  {
    if bits == [] then 0 else 2 * Value(bits[..|bits| - 1]) + Bit(bits[|bits| - 1])
  }

  lemma LastBit(bits: seq<bool>)
    requires bits != []
    ensures Value(bits) % 2 == Bit(bits[|bits| - 1])
  {
  }

  lemma ValueOfSlice(bits: seq<bool>, from: nat, n: nat)
    requires from + n < |bits|
    ensures Value(bits[from..from + n + 1]) == 2 * Value(bits[from..from + n]) + Bit(bits[from + n])
  {
    assert bits[from..from + n + 1][..n] == bits[from..from + n];
  }

  /** The low `n` bits of a number. */
  function ToBits(v: nat, n: nat): (bits: seq<bool>)
    ensures |bits| == n
  {
    if n == 0 then [] else ToBits(v / 2, n - 1) + [v % 2 == 1]
  }

  lemma {:induction false} ValueOfToBits(v: nat, n: nat)
    requires v < Pow2(n)
    ensures Value(ToBits(v, n)) == v
  {
    if n > 0 {
      ValueOfToBits(v / 2, n - 1);
      assert ToBits(v, n)[..n - 1] == ToBits(v / 2, n - 1);
    }
  }

  lemma {:induction false} ToBitsOfValue(bits: seq<bool>)
    ensures ToBits(Value(bits), |bits|) == bits
  {
    if bits != [] {
      var n := |bits| - 1;
      ToBitsOfValue(bits[..n]);
      assert Value(bits) / 2 == Value(bits[..n]);
      assert bits == bits[..n] + [bits[n]];
    }
  }

  /** Two bit strings of one length stand for one number only if they are equal. */
  lemma ValueInjective(a: seq<bool>, b: seq<bool>)
    requires |a| == |b| && Value(a) == Value(b)
    ensures a == b
  {
    ToBitsOfValue(a);
    ToBitsOfValue(b);
  }

  lemma {:induction false} ValueOfConcat(a: seq<bool>, b: seq<bool>)
    ensures Value(a + b) == Value(a) * Pow2(|b|) + Value(b)
  {
    if b == [] {
      assert a + b == a;
    } else {
      var n := |b| - 1;
      var v, p, low := Value(a), Pow2(n), Bit(b[n]);
      ValueOfConcat(a, b[..n]);
      assert (a + b)[..|a + b| - 1] == a + b[..n];
      assert Value(a + b) == 2 * (v * p + Value(b[..n])) + low;
      DoubleFactor(v, p);
    }
  }

  lemma DoubleFactor(v: nat, p: nat)
    ensures v * (2 * p) == 2 * (v * p)
  {
  }

  /** Shifting right drops the low bits. */
  lemma {:induction false} ShiftRight(bits: seq<bool>, k: nat)
    requires k <= |bits|
    ensures Value(bits) / Pow2(k) == Value(bits[..|bits| - k])
  {
    if k == 0 {
      assert bits[..|bits|] == bits;
    } else {
      var n := |bits| - 1;
      ShiftRight(bits[..n], k - 1);
      assert bits[..n][..n - (k - 1)] == bits[..|bits| - k];
      HalveThenDivide(Value(bits), Pow2(k - 1));
      assert Value(bits) / 2 == Value(bits[..n]);
    }
  }

  lemma HalveThenDivide(v: nat, d: nat)
    requires 0 < d
    ensures v / (2 * d) == v / 2 / d
  {
    var q, r := v / 2 / d, v / 2 % d;
    assert v / 2 == q * d + r;
    var x := 2 * r + v % 2;
    assert v == q * (2 * d) + x;
    assert 0 <= x < 2 * d;
    DivisionIsUnique(v, 2 * d, q, x);
  }

  lemma Product(a: nat, b: nat)
    ensures a * b >= 0
  {
  }

  /** Different multiples of d are at least d apart. */
  lemma MultiplesApart(a: int, b: int, d: nat)
    ensures a < b ==> a * d + d <= b * d
  {
    if a < b {
      Product(b - a - 1, d);
      assert (b - a - 1) * d == b * d - a * d - d;
    }
  }

  lemma DivisionIsUnique(v: nat, d: nat, q: nat, x: nat)
    requires v == q * d + x && x < d
    ensures v / d == q
  {
    var p := v / d;
    assert v == p * d + v % d;
    MultiplesApart(p, q, d);
    MultiplesApart(q, p, d);
  }
}
