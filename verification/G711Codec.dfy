/** Decoding and encoding are inverse on bytes, and close and monotone on samples. */
module G711Codec {
  import opened G711

  /** Where a value's segment begins. */
  function SegmentStart(first: nat, seg: nat): nat { if seg == 0 then 0 else first * Pow2(seg) }

  lemma AlawSegment(val: nat)
    requires val < 4096
    ensures
      var seg := Search(val, SEG_A_END, 0);
      && seg < 8 && SegmentStart(16, seg) <= val <= SEG_A_END[seg] && SEG_A_END[seg] == 32 * Pow2(seg) - 1
  {
    SegmentPowers();
    var seg := Search(val, SEG_A_END, 0);
    assert SEG_A_END[7] == 4095;
    if seg > 0 {
      assert val > SEG_A_END[seg - 1];
    }
    assert seg in {0, 1, 2, 3, 4, 5, 6, 7, 8};
  }

  lemma AlawSegmentIs(val: nat, seg: nat)
    requires seg < 8 && SegmentStart(16, seg) <= val < 32 * Pow2(seg)
    ensures Search(val, SEG_A_END, 0) == seg && val < 4096
  {
    SegmentPowers();
    assert seg in {0, 1, 2, 3, 4, 5, 6, 7};
    AlawSegment(val);
    var s := Search(val, SEG_A_END, 0);
    assert s in {0, 1, 2, 3, 4, 5, 6, 7};
  }

  lemma UlawSegment(val: nat)
    requires BIAS <= val < 32768
    ensures
      var seg := Search(val, SEG_END, 0);
      && seg < 8 && 128 * Pow2(seg) <= val <= SEG_END[seg] && SEG_END[seg] == 256 * Pow2(seg) - 1
  {
    SegmentPowers();
    var seg := Search(val, SEG_END, 0);
    assert SEG_END[7] == 32767;
    if seg > 0 {
      assert val > SEG_END[seg - 1];
    }
    assert seg in {0, 1, 2, 3, 4, 5, 6, 7, 8};
  }

  lemma UlawSegmentIs(val: nat, seg: nat)
    requires seg < 8 && BIAS <= val && 128 * Pow2(seg) <= val < 256 * Pow2(seg)
    ensures Search(val, SEG_END, 0) == seg && val < 32768
  {
    SegmentPowers();
    assert seg in {0, 1, 2, 3, 4, 5, 6, 7};
    UlawSegment(val);
    var s := Search(val, SEG_END, 0);
    assert s in {0, 1, 2, 3, 4, 5, 6, 7};
  }

  // ---------------------------------------------------------------- steps

  lemma TimesGrow(m: nat, a: int, b: int)
    ensures a <= b ==> m * a <= m * b
  {
  }

  lemma Division(n: nat, m: nat)
    requires m > 0
    ensures n == m * (n / m) + n % m && n % m < m
  {
  }

  lemma QuotientIs(n: nat, m: nat, d: nat, r: nat)
    requires r < m && n == m * d + r
    ensures n / m == d
  {
    var q := n / m;
    Division(n, m);
    TimesGrow(m, q + 1, d);
    TimesGrow(m, d + 1, q);
    assert m * (q + 1) == m * q + m && m * (d + 1) == m * d + m;
  }

  lemma QuotientBounds(n: nat, m: nat, low: nat, high: nat)
    requires m > 0 && low * m <= n < high * m
    ensures low <= n / m < high
  {
    var d := n / m;
    Division(n, m);
    TimesGrow(m, d + 1, low);
    TimesGrow(m, high, d);
    assert m * (d + 1) == m * d + m;
  }

  lemma QuotientsGrow(a: nat, b: nat, m: nat)
    requires m > 0 && a <= b
    ensures a / m <= b / m && m * (a / m) <= m * (b / m)
  {
    var c, d := a / m, b / m;
    Division(a, m);
    Division(b, m);
    TimesGrow(m, d + 1, c);
    assert m * (d + 1) == m * d + m;
    TimesGrow(m, c, d);
  }

  /** The width of an A-law step, in eighths of the sample's unit. */
  function AlawWidth(seg: nat): nat { if seg < 2 then 2 else Pow2(seg) }

  /** The steps of a segment are counted from 16; those of segment 0 from 0. */
  function AlawCount(seg: nat, q: nat): nat { if seg == 0 then q else q + 16 }

  lemma AlawMagnitudeIs(seg: nat, q: nat)
    requires q < 16
    ensures AlawMagnitude(seg, q) == 8 * (AlawWidth(seg) * AlawCount(seg, q)) + 4 * AlawWidth(seg)
  {
    if seg >= 2 {
      var x := Pow2(seg - 1);
      assert AlawWidth(seg) == 2 * x;
      assert (16 * q + 0x108) * x == 16 * (x * (q + 16)) + 8 * x;
    }
  }

  lemma AlawStepIs(val: nat, seg: nat)
    requires seg < 8 && SegmentStart(16, seg) <= val < 32 * Pow2(seg)
    ensures AlawStep(val, seg) < 16 && AlawCount(seg, AlawStep(val, seg)) == val / AlawWidth(seg)
  {
    if seg > 0 {
      assert Pow2(1) == 2 && AlawWidth(seg) == Pow2(seg);
      QuotientBounds(val, Pow2(seg), 16, 32);
    }
  }

  lemma UlawMagnitudeIs(seg: nat, q: nat)
    requires q < 16
    ensures UlawMagnitude(seg, q) == 8 * (Pow2(seg) * (q + 16)) + 4 * Pow2(seg)
  {
    var x := Pow2(seg);
    assert (8 * q + BIAS) * x == 8 * (x * (q + 16)) + 4 * x;
  }

  lemma UlawStepIs(val: nat, seg: nat)
    requires seg < 8 && 128 * Pow2(seg) <= val < 256 * Pow2(seg)
    ensures Pow2(seg + 3) == 8 * Pow2(seg) && Pow2(seg + 2) == 4 * Pow2(seg)
    ensures val / Pow2(seg + 3) % 16 + 16 == val / (8 * Pow2(seg))
  {
    assert Pow2(seg + 3) == 2 * Pow2(seg + 2) && Pow2(seg + 2) == 2 * Pow2(seg + 1) && Pow2(seg + 1) == 2 * Pow2(seg);
    QuotientBounds(val, 8 * Pow2(seg), 16, 32);
  }

  // ---------------------------------------------------------------- bytes

  /** The two parts of a code. */
  lemma CodeParts(n: Byte)
    ensures n % 128 == n / 16 % 8 * 16 + n % 16 && n / 16 % 8 < 8 && (n >= 128 <==> n != n % 128)
  {
  }

  lemma AlawStepBack(seg: nat, q: nat, positive: bool)
    requires seg < 8 && q < 16
    ensures
      var pcm := Signed(AlawMagnitude(seg, q), positive);
      && -32768 <= pcm < 32768 && (pcm >= 0 <==> positive)
      && Search(AlawVal(pcm), SEG_A_END, 0) == seg && AlawStep(AlawVal(pcm), seg) == q
  {
    hide AlawMagnitude, Search, AlawStep;
    AlawFits(seg, q);
    AlawMagnitudeIs(seg, q);
    var m, d := AlawWidth(seg), AlawCount(seg, q);
    HalfWidth(seg);
    var h := m / 2;
    var val: nat := if positive then m * d + h else m * d + h - 1;
    assert AlawVal(Signed(AlawMagnitude(seg, q), positive)) == val;
    InSegment(m, d, val, 16, 32);
    AlawSegmentIs(val, seg);
    QuotientIs(val, m, d, if positive then h else h - 1);
    AlawStepIs(val, seg);
  }

  lemma HalfWidth(seg: nat)
    requires seg < 8
    ensures AlawWidth(seg) == 2 * (AlawWidth(seg) / 2) && AlawWidth(seg) > 0
    ensures seg > 0 ==> AlawWidth(seg) == Pow2(seg)
    ensures seg == 0 ==> Pow2(seg) == 1
  {
    if seg >= 2 {
      assert Pow2(seg) == 2 * Pow2(seg - 1);
    }
    assert Pow2(1) == 2;
  }

  lemma InSegment(m: nat, d: nat, val: nat, low: nat, high: nat)
    requires m > 0 && m * d <= val < m * d + m
    ensures low <= d ==> low * m <= val
    ensures d < high ==> val < high * m
  {
    if low <= d {
      assert low * m <= d * m;
    }
    if d < high {
      assert (d + 1) * m <= high * m;
    }
  }

  /** Every A-law byte is the encoding of the sample it stands for. */
  lemma AlawBytesSurvive(a: Byte)
    ensures Linear2Alaw(Alaw2Linear(a)) == a
  {
    hide AlawMagnitude, AlawVal, AlawStep, Search, Xor;
    var t := Xor(a, 0x55);
    ByteXorTwice(a, 0x55);
    ByteXorSign(a);
    CodeParts(t);
    AlawStepBack(t / 16 % 8, t % 16, a >= 0x80);
    SignBit(t % 128);
  }

  lemma ByteXorSign(a: Byte)
    ensures Xor(a, 0x55) >= 128 <==> a >= 128
  {
    hide Xor;
    SignBit(if a < 128 then a else a - 128);
  }

  lemma UlawStepBack(seg: nat, q: nat, positive: bool)
    requires seg < 8 && q < 16
    ensures
      var pcm := Signed(UlawMagnitude(seg, q) - BIAS, positive);
      && -32768 <= pcm < 32768 && (pcm < 0 <==> !positive && (seg > 0 || q > 0))
      && Search(UlawVal(pcm), SEG_END, 0) == seg && UlawVal(pcm) / Pow2(seg + 3) % 16 == q
  {
    hide UlawMagnitude, Search;
    UlawFits(seg, q);
    UlawMagnitudeIs(seg, q);
    var x := Pow2(seg);
    var val := UlawMagnitude(seg, q);
    assert 8 * (x * (q + 16)) == (8 * x) * (q + 16);
    InSegment(8 * x, q + 16, val, 16, 32);
    UlawSegmentIs(val, seg);
    QuotientIs(val, 8 * x, q + 16, 4 * x);
    UlawStepIs(val, seg);
    OnlyZero(seg, q);
  }

  lemma OnlyZero(seg: nat, q: nat)
    requires q < 16
    ensures UlawMagnitude(seg, q) == BIAS <==> seg == 0 && q == 0
  {
    UlawMagnitudeIs(seg, q);
    if seg > 0 {
      assert Pow2(seg) == 2 * Pow2(seg - 1) >= 2;
      assert Pow2(seg) * (q + 16) >= 2 * 16;
    } else {
      assert Pow2(0) == 1;
    }
  }

  /** Every mu-law byte survives but the one that stands for a negative zero, which becomes the other zero. */
  lemma UlawBytesSurvive(u: Byte)
    ensures Linear2Ulaw(Ulaw2Linear(u)) == if u == 0x7F then 0xFF else u
  {
    hide UlawMagnitude, UlawVal, Search, Xor;
    var v := 255 - u;
    var seg, q := v / 16 % 8, v % 16;
    UlawFits(seg, q);
    UlawStepBack(seg, q, v < 0x80);
    CodeParts(v);
    SignBit(v % 128);
  }

  // ---------------------------------------------------------------- samples

  /** The sample that A-law makes of a sample. */
  function AlawTrip(pcm: Sample): Sample { Alaw2Linear(Linear2Alaw(pcm)) }

  function UlawTrip(pcm: Sample): Sample { Ulaw2Linear(Linear2Ulaw(pcm)) }

  lemma AlawTripIs(pcm: Sample)
    ensures
      var val := AlawVal(pcm);
      var seg := Search(val, SEG_A_END, 0);
      seg < 8 && AlawTrip(pcm) == Signed(AlawMagnitude(seg, AlawStep(val, seg)), pcm >= 0)
  {
    hide AlawMagnitude, AlawStep, Search, Xor;
    var val := AlawVal(pcm);
    AlawSegment(val);
    var seg := Search(val, SEG_A_END, 0);
    StepFits(val, seg);
    var n := seg * 16 + AlawStep(val, seg);
    SignBit(n);
    ByteXorTwice(n, 0x55);
    ByteXorTwice(n + 128, 0x55);
    PartsOf(seg, AlawStep(val, seg));
  }

  lemma StepFits(val: nat, seg: nat)
    ensures AlawStep(val, seg) < 16
  {
  }

  lemma PartsOf(seg: nat, q: nat)
    requires seg < 8 && q < 16
    ensures (seg * 16 + q) / 16 % 8 == seg && (seg * 16 + q) % 16 == q
    ensures (seg * 16 + q + 128) / 16 % 8 == seg && (seg * 16 + q + 128) % 16 == q
  {
  }

  /** The middle of the step that holds val, and how far it can be from it. */
  lemma AlawMiddle(val: nat)
    requires val < 4096
    ensures
      var seg := Search(val, SEG_A_END, 0);
      var m, w := AlawMagnitude(seg, AlawStep(val, seg)), 4 * AlawWidth(seg);
      && seg < 8
      && 8 * val - w + 8 <= m <= 8 * val + w
      && 8 * SegmentStart(16, seg) < m < 256 * Pow2(seg)
  {
    hide AlawMagnitude, Search, AlawStep, Pow2;
    AlawSegment(val);
    var seg := Search(val, SEG_A_END, 0);
    var q := AlawStep(val, seg);
    AlawStepIs(val, seg);
    AlawMagnitudeIs(seg, q);
    HalfWidth(seg);
    var m, d := AlawWidth(seg), AlawCount(seg, q);
    Division(val, m);
    TimesGrow(m, d, if seg == 0 then 15 else 31);
    TimesGrow(m, 16, d);
  }

  /** A-law is off by at most half a step, which is 8 in the first two segments. */
  lemma AlawError(pcm: Sample)
    ensures
      var seg := Search(AlawVal(pcm), SEG_A_END, 0);
      var bound: int := if seg < 2 then 8 else Pow2(seg + 2);
      -bound <= AlawTrip(pcm) - pcm <= bound
  {
    hide AlawMagnitude, AlawStep, Search;
    AlawTripIs(pcm);
    AlawMiddle(AlawVal(pcm));
    var seg := Search(AlawVal(pcm), SEG_A_END, 0);
    assert Pow2(seg + 2) == 2 * Pow2(seg + 1) && Pow2(seg + 1) == 2 * Pow2(seg);
  }

  lemma AlawSegmentsGrow(a: nat, b: nat)
    requires a <= b < 4096
    ensures
      var s, t := Search(a, SEG_A_END, 0), Search(b, SEG_A_END, 0);
      && s <= t < 8 && (s < t ==> 256 * Pow2(s) <= 8 * SegmentStart(16, t))
  {
    SegmentPowers();
    AlawSegment(a);
    AlawSegment(b);
    var s, t := Search(a, SEG_A_END, 0), Search(b, SEG_A_END, 0);
    assert s in {0, 1, 2, 3, 4, 5, 6, 7} && t in {0, 1, 2, 3, 4, 5, 6, 7};
  }

  lemma AlawMagnitudesGrow(a: nat, b: nat)
    requires a <= b < 4096
    ensures
      var s, t := Search(a, SEG_A_END, 0), Search(b, SEG_A_END, 0);
      AlawMagnitude(s, AlawStep(a, s)) <= AlawMagnitude(t, AlawStep(b, t))
  {
    hide AlawMagnitude, AlawStep, Search;
    var s, t := Search(a, SEG_A_END, 0), Search(b, SEG_A_END, 0);
    AlawSegmentsGrow(a, b);
    if s < t {
      AlawMiddle(a);
      AlawMiddle(b);
    } else {
      AlawSegment(a);
      AlawSegment(b);
      AlawStepIs(a, s);
      AlawStepIs(b, s);
      AlawMagnitudeIs(s, AlawStep(a, s));
      AlawMagnitudeIs(s, AlawStep(b, s));
      HalfWidth(s);
      QuotientsGrow(a, b, AlawWidth(s));
    }
  }

  /** Louder samples do not become quieter. */
  lemma AlawMonotone(x: Sample, y: Sample)
    requires x <= y
    ensures AlawTrip(x) <= AlawTrip(y)
  {
    hide AlawMagnitude, AlawStep, Search;
    AlawTripIs(x);
    AlawTripIs(y);
    if x < 0 <= y {
      AlawMiddle(AlawVal(x));
      AlawMiddle(AlawVal(y));
    } else if x >= 0 {
      AlawMagnitudesGrow(AlawVal(x), AlawVal(y));
    } else {
      AlawMagnitudesGrow(AlawVal(y), AlawVal(x));
    }
  }

  /** Samples beyond this are clipped by mu-law. */
  const ULAW_CLIP := 32635

  function UlawSeg(val: nat): nat { if val < 32768 then Search(val, SEG_END, 0) else 7 }

  function UlawStep(val: nat): nat { if val < 32768 then val / Pow2(UlawSeg(val) + 3) % 16 else 15 }

  lemma UlawTripIs(pcm: Sample)
    ensures
      var val := UlawVal(pcm);
      UlawSeg(val) < 8 && UlawStep(val) < 16 && UlawTrip(pcm) == Signed(UlawMagnitude(UlawSeg(val), UlawStep(val)) - BIAS, pcm >= 0)
  {
    hide UlawMagnitude, Xor, Search, Pow2;
    var val := UlawVal(pcm);
    if val < 32768 {
      UlawSegment(val);
      var seg, q := UlawSeg(val), UlawStep(val);
      SignBit(seg * 16 + q);
      PartsOf(seg, q);
    } else {
      NoSegment(val);
      SignBit(0x7F);
    }
  }

  lemma NoSegment(val: nat)
    requires val >= 32768
    ensures Search(val, SEG_END, 0) == 8
  {
  }

  lemma UlawMiddle(val: nat)
    requires BIAS <= val
    ensures
      var seg, q := UlawSeg(val), UlawStep(val);
      var m := UlawMagnitude(seg, q);
      && seg < 8 && q < 16
      && (val < 32768 ==> val - 4 * Pow2(seg) < m <= val + 4 * Pow2(seg))
      && 128 * Pow2(seg) < m < 256 * Pow2(seg)
  {
    hide UlawMagnitude, Search, Pow2;
    var seg, q := UlawSeg(val), UlawStep(val);
    var x, p := Pow2(seg), Pow2(seg) * (q + 16);
    if val < 32768 {
      UlawSegment(val);
      UlawStepIs(val, seg);
      Division(val, 8 * x);
      EightTimes(x, q + 16);
    }
    UlawMagnitudeIs(seg, q);
    TimesGrow(x, 16, q + 16);
    TimesGrow(x, q + 16, 31);
  }

  lemma EightTimes(x: nat, d: nat)
    ensures (8 * x) * d == 8 * (x * d)
  {
  }

  /** Below the clipping point mu-law is off by at most half a step of the segment. */
  lemma UlawError(pcm: Sample)
    requires -ULAW_CLIP <= pcm <= ULAW_CLIP
    ensures
      var bound: int := Pow2(Search(UlawVal(pcm), SEG_END, 0) + 2);
      -bound <= UlawTrip(pcm) - pcm <= bound
  {
    hide UlawMagnitude, UlawStep, Search;
    UlawTripIs(pcm);
    UlawMiddle(UlawVal(pcm));
    var seg := Search(UlawVal(pcm), SEG_END, 0);
    assert Pow2(seg + 2) == 2 * Pow2(seg + 1) && Pow2(seg + 1) == 2 * Pow2(seg);
  }

  lemma UlawMagnitudesGrow(a: nat, b: nat)
    requires BIAS <= a <= b
    ensures UlawMagnitude(UlawSeg(a), UlawStep(a)) <= UlawMagnitude(UlawSeg(b), UlawStep(b))
  {
    hide UlawMagnitude, UlawStep, UlawSeg, Pow2;
    UlawSegmentsGrow(a, b);
    UlawMiddle(a);
    UlawMiddle(b);
    var s, t := UlawSeg(a), UlawSeg(b);
    if s == t {
      UlawStepsGrow(a, b, s);
      UlawMagnitudeIs(s, UlawStep(a));
      UlawMagnitudeIs(s, UlawStep(b));
      TimesGrow(Pow2(s), UlawStep(a) + 16, UlawStep(b) + 16);
    }
  }

  lemma UlawSegmentsGrow(a: nat, b: nat)
    requires BIAS <= a <= b
    ensures var s, t := UlawSeg(a), UlawSeg(b); s <= t < 8 && (s < t ==> 256 * Pow2(s) <= 128 * Pow2(t))
  {
    SegmentPowers();
    if a < 32768 {
      UlawSegment(a);
    }
    if b < 32768 {
      UlawSegment(b);
    }
    var s, t := UlawSeg(a), UlawSeg(b);
    assert s in {0, 1, 2, 3, 4, 5, 6, 7} && t in {0, 1, 2, 3, 4, 5, 6, 7};
  }

  lemma UlawStepsGrow(a: nat, b: nat, seg: nat)
    requires BIAS <= a <= b && UlawSeg(a) == seg == UlawSeg(b) && seg < 8
    ensures UlawStep(a) <= UlawStep(b)
  {
    hide Search;
    if a < 32768 {
      UlawSegment(a);
      UlawStepIs(a, seg);
      if b < 32768 {
        UlawSegment(b);
        UlawStepIs(b, seg);
        QuotientsGrow(a, b, 8 * Pow2(seg));
      }
    }
  }

  lemma UlawMonotone(x: Sample, y: Sample)
    requires x <= y
    ensures UlawTrip(x) <= UlawTrip(y)
  {
    hide UlawMagnitude, UlawStep, UlawSeg;
    UlawTripIs(x);
    UlawTripIs(y);
    UlawFits(UlawSeg(UlawVal(x)), UlawStep(UlawVal(x)));
    UlawFits(UlawSeg(UlawVal(y)), UlawStep(UlawVal(y)));
    if x >= 0 {
      UlawMagnitudesGrow(UlawVal(x), UlawVal(y));
    } else if y < 0 {
      UlawMagnitudesGrow(UlawVal(y), UlawVal(x));
    }
  }
}
