/** Streams of bytes and samples, as the program's loops fill them, and what a stream is after a trip. */
module G711Stream {
  import opened Text
  import opened G711
  import opened G711Codec

  datatype Law = Alaw | Ulaw

  function Decode(law: Law, b: Byte): Sample { if law.Alaw? then Alaw2Linear(b) else Ulaw2Linear(b) }

  function Encode(law: Law, x: Sample): Byte { if law.Alaw? then Linear2Alaw(x) else Linear2Ulaw(x) }

  /** What a byte becomes when it is decoded and encoded again. */
  function Settled(law: Law, b: Byte): Byte { if law.Ulaw? && b == 0x7F then 0xFF else b }

  /** The two bytes of a sample, low byte first. */
  function Low(x: Sample): Byte { x % 256 }

  function High(x: Sample): Byte { x / 256 % 256 }

  function Half(x: Sample, which: nat): Byte { if which == 0 then Low(x) else High(x) }

  /** Two bytes put together, with the high byte's sign. */
  function Join16(low: Byte, high: Byte): Sample
  {
    var n := low + 256 * high;
    if n < 32768 then n else n - 65536
  }

  lemma BytesOfSample(x: Sample)
    ensures Join16(Low(x), High(x)) == x
  {
  }

  /** The loop over the table that finds a segment. */
  method SearchLoop(val: int, table: seq<int>) returns (seg: nat)
    ensures seg == Search(val, table, 0)
  {
    for i := 0 to |table|
      invariant Search(val, table, 0) == Search(val, table, i)
    {
      if val <= table[i] {
        return i;
      }
    }
    return |table|;
  }

  method DecodeStream(law: Law, data: seq<Byte>) returns (amp: array<Sample>)
    ensures fresh(amp) && amp.Length == |data|
    ensures forall i :: 0 <= i < |data| ==> amp[i] == Decode(law, data[i])
  {
    amp := new Sample[|data|];
    for i := 0 to |data|
      invariant forall k :: 0 <= k < i ==> amp[k] == Decode(law, data[k])
    {
      amp[i] := Decode(law, data[i]);
    }
  }

  method EncodeStream(law: Law, amp: array<Sample>) returns (data: array<Byte>)
    ensures fresh(data) && data.Length == amp.Length
    ensures forall i :: 0 <= i < amp.Length ==> data[i] == Encode(law, amp[i])
  {
    data := new Byte[amp.Length];
    for i := 0 to amp.Length
      invariant forall k :: 0 <= k < i ==> data[k] == Encode(law, amp[k])
    {
      data[i] := Encode(law, amp[i]);
    }
  }

  /** Decodes to PCM bytes, two for each sample. */
  method DecodeToBytes(law: Law, data: seq<Byte>) returns (result: array<Byte>)
    ensures fresh(result) && result[..] == PcmBytes(law, data)
  {
    hide Decode;
    var amp := DecodeStream(law, data);
    result := new Byte[2 * amp.Length];
    for i := 0 to amp.Length
      invariant forall k :: 0 <= k < amp.Length ==> amp[k] == Decode(law, data[k])
      invariant forall j :: 0 <= j < 2 * i ==> result[j] == Half(Decode(law, data[j / 2]), j % 2)
    {
      result[2 * i] := Low(amp[i]);
      result[2 * i + 1] := High(amp[i]);
    }
    PcmBytesAt(law, data);
  }

  /** Encodes PCM bytes; an odd number of them is an error. */
  method EncodeBytes(law: Law, pcm: seq<Byte>) returns (data: Option<seq<Byte>>)
    ensures data == if |pcm| % 2 != 0 then None else Some(EncodedBytes(law, pcm))
  {
    hide Encode;
    if |pcm| % 2 != 0 {
      return None;
    }
    var amp := new Sample[|pcm| / 2];
    for i := 0 to amp.Length
      invariant forall k :: 0 <= k < i ==> amp[k] == Join16(pcm[2 * k], pcm[2 * k + 1])
    {
      amp[i] := Join16(pcm[2 * i], pcm[2 * i + 1]);
    }
    var out := EncodeStream(law, amp);
    EncodedBytesAt(law, pcm);
    assert out[..] == EncodedBytes(law, pcm);
    return Some(out[..]);
  }

  // ---------------------------------------------------------------- specifications

  function PcmBytes(law: Law, data: seq<Byte>): seq<Byte>
  {
    if data == [] then []
    else
      var x := Decode(law, data[0]);
      [Low(x), High(x)] + PcmBytes(law, data[1..])
  }

  function EncodedBytes(law: Law, pcm: seq<Byte>): seq<Byte>
  {
    if |pcm| < 2 then [] else [Encode(law, Join16(pcm[0], pcm[1]))] + EncodedBytes(law, pcm[2..])
  }

  function SettledStream(law: Law, data: seq<Byte>): (r: seq<Byte>)
    ensures |r| == |data| && forall i :: 0 <= i < |data| ==> r[i] == Settled(law, data[i])
  {
    if data == [] then [] else [Settled(law, data[0])] + SettledStream(law, data[1..])
  }

  lemma {:induction false} PcmBytesAt(law: Law, data: seq<Byte>)
    ensures |PcmBytes(law, data)| == 2 * |data|
    ensures forall j :: 0 <= j < 2 * |data| ==> PcmBytes(law, data)[j] == Half(Decode(law, data[j / 2]), j % 2)
  {
    hide Decode;
    if data != [] {
      PcmBytesAt(law, data[1..]);
      var rest := PcmBytes(law, data[1..]);
      forall j | 0 <= j < 2 * |data| ensures PcmBytes(law, data)[j] == Half(Decode(law, data[j / 2]), j % 2) {
        if j >= 2 {
          assert data[j / 2] == data[1..][(j - 2) / 2] && PcmBytes(law, data)[j] == rest[j - 2];
        }
      }
    }
  }

  lemma {:induction false} EncodedBytesAt(law: Law, pcm: seq<Byte>)
    ensures |EncodedBytes(law, pcm)| == |pcm| / 2
    ensures forall i :: 0 <= i < |pcm| / 2 ==> EncodedBytes(law, pcm)[i] == Encode(law, Join16(pcm[2 * i], pcm[2 * i + 1]))
  {
    hide Encode;
    if |pcm| >= 2 {
      EncodedBytesAt(law, pcm[2..]);
      forall i | 0 <= i < |pcm| / 2 ensures EncodedBytes(law, pcm)[i] == Encode(law, Join16(pcm[2 * i], pcm[2 * i + 1])) {
        if i > 0 {
          assert pcm[2 * i] == pcm[2..][2 * (i - 1)] && pcm[2 * i + 1] == pcm[2..][2 * (i - 1) + 1];
        }
      }
    }
  }

  // ---------------------------------------------------------------- theorems

  lemma ByteSettles(law: Law, b: Byte)
    ensures Encode(law, Decode(law, b)) == Settled(law, b)
  {
    AlawBytesSurvive(b);
    UlawBytesSurvive(b);
  }

  /** Decoding any stream to PCM bytes and encoding these again changes only the mu-law byte 0x7F, to 0xFF. */
  lemma {:induction false} StreamSettles(law: Law, data: seq<Byte>)
    ensures |PcmBytes(law, data)| % 2 == 0 && EncodedBytes(law, PcmBytes(law, data)) == SettledStream(law, data)
  {
    hide Decode, Encode, Settled, Join16, Low, High;
    PcmBytesAt(law, data);
    if data != [] {
      var x := Decode(law, data[0]);
      var pcm, rest := PcmBytes(law, data), PcmBytes(law, data[1..]);
      StreamSettles(law, data[1..]);
      BytesOfSample(x);
      ByteSettles(law, data[0]);
      assert pcm[0] == Low(x) && pcm[1] == High(x) && pcm[2..] == rest;
    }
  }

  /** So a second trip changes nothing. */
  lemma {:induction false} SecondTripIsIdentity(law: Law, data: seq<Byte>)
    ensures EncodedBytes(law, PcmBytes(law, SettledStream(law, data))) == SettledStream(law, data)
  {
    hide Decode, Encode, PcmBytes, EncodedBytes;
    var once := SettledStream(law, data);
    StreamSettles(law, once);
    assert SettledStream(law, once) == once;
  }

  /** The largest error a law may make on a sample it does not clip. */
  function Bound(law: Law, x: Sample): int
  {
    match law
    case Alaw =>
      var seg := Search(AlawVal(x), SEG_A_END, 0);
      if seg < 2 then 8 else Pow2(seg + 2)
    case Ulaw => Pow2(Search(UlawVal(x), SEG_END, 0) + 2)
  }

  /** Encoding and decoding any stream of samples keeps each within its bound, and keeps their order. */
  lemma SamplesStayClose(law: Law, amp: seq<Sample>, i: nat, j: nat)
    requires i < |amp| && j < |amp|
    ensures law.Alaw? || -ULAW_CLIP <= amp[i] <= ULAW_CLIP ==> -Bound(law, amp[i]) <= Decode(law, Encode(law, amp[i])) - amp[i] <= Bound(law, amp[i])
    ensures amp[i] <= amp[j] ==> Decode(law, Encode(law, amp[i])) <= Decode(law, Encode(law, amp[j]))
  {
    AlawError(amp[i]);
    if -ULAW_CLIP <= amp[i] <= ULAW_CLIP {
      UlawError(amp[i]);
    }
    if amp[i] <= amp[j] {
      AlawMonotone(amp[i], amp[j]);
      UlawMonotone(amp[i], amp[j]);
    }
  }
}
