/**
 G.711 companding (section 3 of ITU-T G.711): a 16-bit sample becomes a sign, one of eight segments and
 one of sixteen steps in it. Bytes and samples are integers; masks and shifts are written as remainders,
 quotients and multiples of powers of two.
 */
module G711 {

  type Byte = n: int | 0 <= n < 256

  type Sample = n: int | -32768 <= n < 32768

  function Pow2(n: nat): (r: nat)
    ensures r > 0
  {
    if n == 0 then 1 else 2 * Pow2(n - 1)
  }

  /** Exclusive or of the lowest n bits, from the highest of these down. */
  function XorBits(a: nat, b: nat, n: nat): (r: nat)
    ensures r < Pow2(n)
  {
    if n == 0 then 0
    else
      var m := Pow2(n - 1);
      (if a / m % 2 != b / m % 2 then m else 0) + XorBits(a % m, b % m, n - 1)
  }

  function Xor(a: Byte, b: Byte): Byte
  {
    BytePowers();
    XorBits(a, b, 8)
  }

  lemma BytePowers()
    ensures Pow2(8) == 256 && Pow2(7) == 128
  {
    assert Pow2(4) == 16;
  }

  // ---------------------------------------------------------------- segments

  /** The first segment that holds the value, or the number of segments. */
  function Search(val: int, table: seq<int>, from: nat): (i: nat)
    requires from <= |table|
    ensures from <= i <= |table|
    ensures i < |table| ==> val <= table[i]
    ensures forall j :: from <= j < i ==> val > table[j]
    decreases |table| - from
  {
    if from == |table| || val <= table[from] then from else Search(val, table, from + 1)
  }

  /** The last values of the segments of A-law, on samples divided by eight, and of mu-law. */
  const SEG_A_END := [0x1F, 0x3F, 0x7F, 0xFF, 0x1FF, 0x3FF, 0x7FF, 0xFFF]

  const SEG_END := [0xFF, 0x1FF, 0x3FF, 0x7FF, 0xFFF, 0x1FFF, 0x3FFF, 0x7FFF]

  const NSEGS := 8

  const BIAS := 0x84

  // ---------------------------------------------------------------- A-law

  /** The middle of step q of a segment. */
  function AlawMagnitude(seg: nat, q: nat): nat
  {
    if seg == 0 then 16 * q + 8 else if seg == 1 then 16 * q + 0x108 else (16 * q + 0x108) * Pow2(seg - 1)
  }

  function Signed(magnitude: int, positive: bool): int { if positive then magnitude else -magnitude }

  lemma AlawFits(seg: nat, q: nat)
    requires seg < 8 && q < 16
    ensures 8 <= AlawMagnitude(seg, q) <= 32256
  {
    SegmentPowers();
    assert seg in {0, 1, 2, 3, 4, 5, 6, 7};
  }

  lemma SegmentPowers()
    ensures Pow2(0) == 1 && Pow2(1) == 2 && Pow2(2) == 4 && Pow2(3) == 8 && Pow2(4) == 16 && Pow2(5) == 32
    ensures Pow2(6) == 64 && Pow2(7) == 128 && Pow2(8) == 256 && Pow2(9) == 512 && Pow2(10) == 1024
  {
    assert Pow2(4) == 16 && Pow2(8) == 256;
  }

  function Alaw2Linear(a: Byte): Sample
  {
    var t := Xor(a, 0x55);
    AlawFits(t / 16 % 8, t % 16);
    Signed(AlawMagnitude(t / 16 % 8, t % 16), a >= 0x80)
  }

  /** The magnitude that A-law quantizes, one eighth of the sample's. */
  function AlawVal(pcm: Sample): nat { if pcm >= 0 then pcm / 8 else -(pcm / 8) - 1 }

  function AlawStep(val: nat, seg: nat): nat { (if seg < 2 then val / 2 else val / Pow2(seg)) % 16 }

  /** No sample is beyond the last segment, so the program's branch for that case is never taken. */
  function Linear2Alaw(pcm: Sample): Byte
  {
    var val := AlawVal(pcm);
    var seg := Search(val, SEG_A_END, 0);
    Xor(seg * 16 + AlawStep(val, seg), if pcm >= 0 then 0xD5 else 0x55)
  }

  // ---------------------------------------------------------------- mu-law

  function UlawMagnitude(seg: nat, q: nat): nat { (8 * q + BIAS) * Pow2(seg) }

  lemma UlawFits(seg: nat, q: nat)
    requires seg < 8 && q < 16
    ensures BIAS <= UlawMagnitude(seg, q) <= 32256
  {
    SegmentPowers();
    assert seg in {0, 1, 2, 3, 4, 5, 6, 7};
  }

  function Ulaw2Linear(u: Byte): Sample
  {
    var v := 255 - u;
    UlawFits(v / 16 % 8, v % 16);
    var t := UlawMagnitude(v / 16 % 8, v % 16);
    if v >= 0x80 then BIAS - t else t - BIAS
  }

  function UlawVal(pcm: Sample): nat { if pcm < 0 then BIAS - pcm else pcm + BIAS }

  function Linear2Ulaw(pcm: Sample): Byte
  {
    var val := UlawVal(pcm);
    var mask := if pcm < 0 then 0x7F else 0xFF;
    var seg := Search(val, SEG_END, 0);
    if seg >= NSEGS then Xor(0x7F, mask) else Xor(seg * 16 + val / Pow2(seg + 3) % 16, mask)
  }

  // ---------------------------------------------------------------- exclusive or

  lemma {:induction false} XorTwice(a: nat, b: nat, n: nat)
    requires a < Pow2(n)
    ensures XorBits(XorBits(a, b, n), b, n) == a
  {
    hide XorBits;
    if n == 0 {
      XorNothing(XorBits(a, b, n), b);
    } else {
      var m := Pow2(n - 1);
      var low := XorBits(a % m, b % m, n - 1);
      var top := if a / m % 2 != b / m % 2 then m else 0;
      HalfSplit(a, m);
      XorTwice(a % m, b % m, n - 1);
      XorUnfold(a, b, n);
      XorUnfold(top + low, b, n);
      TopAndLow(top, low, m);
    }
  }

  lemma XorNothing(a: nat, b: nat)
    ensures XorBits(a, b, 0) == 0
  {
  }

  lemma XorUnfold(a: nat, b: nat, n: nat)
    requires n > 0
    ensures var m := Pow2(n - 1);
            XorBits(a, b, n) == (if a / m % 2 != b / m % 2 then m else 0) + XorBits(a % m, b % m, n - 1)
  {
  }

  lemma TopAndLow(top: nat, low: nat, m: nat)
    requires m > 0 && low < m && (top == 0 || top == m)
    ensures (top + low) / m % 2 == (if top == m then 1 else 0) && (top + low) % m == low
  {
    if top == m {
      assert m + low == m * 1 + low;
    }
  }

  lemma HalfSplit(a: nat, m: nat)
    requires m > 0 && a < 2 * m
    ensures a % m < m && a == (if a / m % 2 == 1 then m else 0) + a % m
  {
    if a < m {
      assert a / m == 0;
    } else {
      assert a == m * 1 + (a - m);
      assert a / m == 1;
    }
  }

  lemma {:induction false} XorOnes(a: nat, n: nat)
    requires a < Pow2(n)
    ensures XorBits(a, Pow2(n) - 1, n) == Pow2(n) - 1 - a
  {
    if n > 0 {
      var m := Pow2(n - 1);
      var b := Pow2(n) - 1;
      assert b == m * 1 + (m - 1);
      HalfSplit(a, m);
      HalfSplit(b, m);
      XorOnes(a % m, n - 1);
    }
  }

  lemma ByteXorTwice(a: Byte, b: Byte)
    ensures Xor(Xor(a, b), b) == a
  {
    BytePowers();
    XorTwice(a, b, 8);
  }

  /** The sign bit is flipped by the masks that have it, and the other bits do not touch it. */
  lemma SignBit(a: Byte)
    requires a < 128
    ensures Xor(a, 0xD5) == Xor(a + 128, 0x55) >= 128 && Xor(a, 0x55) < 128
    ensures Xor(a, 0xFF) == 255 - a && Xor(a, 0x7F) == 127 - a
  {
    BytePowers();
    HalfSplit(a, 128);
    HalfSplit(a + 128, 128);
    XorOnes(a, 8);
    XorOnes(a, 7);
    assert XorBits(a, 0x7F, 8) == XorBits(a % 128, 0x7F % 128, 7);
    assert XorBits(a, 0x55, 8) == XorBits(a, 0x55, 7);
    assert XorBits(a, 0xD5, 8) == 128 + XorBits(a, 0x55, 7);
    assert XorBits(a + 128, 0x55, 8) == 128 + XorBits(a, 0x55, 7);
  }
}
