/**
 Lists longer than the decoder's limits: the last piece of a cut keeps what is left over, separators
 included, and no number can be read from it. So the lists that come back are exactly those within the limits.
 */
module SdpLimits {
  import opened Text
  import opened Sdp
  import opened SdpParse
  import opened SdpFields

  /** The pieces after the k-th, joined into one. */
  function Merged(parts: seq<string>, sep: char, k: nat): seq<string>
    requires k < |parts|
  {
    parts[..k] + [JoinAll(parts[k..], sep)]
  }

  lemma {:induction false} JoinMerged(parts: seq<string>, sep: char, k: nat)
    requires k < |parts|
    ensures JoinAll(Merged(parts, sep, k), sep) == JoinAll(parts, sep)
    decreases k
  {
    if k == 0 {
      assert parts[0..] == parts && Merged(parts, sep, 0) == [JoinAll(parts, sep)];
    } else {
      JoinMerged(parts[1..], sep, k - 1);
      assert parts[1..][..k - 1] == parts[1..k] && parts[1..][k - 1..] == parts[k..];
      assert Merged(parts, sep, k)[1..] == Merged(parts[1..], sep, k - 1);
    }
  }

  /** A cut at the limit leaves the rest of the pieces together in the last one. */
  lemma SplitOverflow(parts: seq<string>, sep: char, n: nat)
    requires 0 < n < |parts| && forall i :: 0 <= i < |parts| ==> Free(parts[i], sep)
    ensures Split(JoinAll(parts, sep), sep, n) == Merged(parts, sep, n - 1)
    ensures !Free(JoinAll(parts[n - 1..], sep), sep)
  {
    var m, rest := Merged(parts, sep, n - 1), parts[n - 1..];
    JoinMerged(parts, sep, n - 1);
    assert forall i :: 0 <= i < |m| - 1 ==> m[i] == parts[i];
    hide Split, Free, JoinAll;
    SplitJoinAll(m, sep, n);
    JoinNotFree(rest, sep);
  }

  lemma JoinNotFree(parts: seq<string>, sep: char)
    requires |parts| >= 2
    ensures !Free(JoinAll(parts, sep), sep)
  {
    assert JoinAll(parts, sep)[|parts[0]|] == sep;
  }

  lemma SpacedInt(v: string)
    requires !Free(v, ' ')
    ensures Int(v).Err?
  {
    var i :| 0 <= i < |v| && v[i] == ' ';
    var signed := v[0] == '-' || v[0] == '+';
    var digits := if signed then v[1..] else v;
    assert digits[if signed then i - 1 else i] == ' ';
  }

  lemma SpacedDuration(v: string)
    requires !Free(v, ' ')
    ensures DurationOf(v).Err?
  {
    var i :| 0 <= i < |v| && v[i] == ' ';
    var (m, digits) := Unit(v);
    assert i < |digits| && digits[i] == ' ';
    SpacedInt(digits);
  }

  // ---------------------------------------------------------------- payload types

  lemma {:induction false} PayloadsFail(p: seq<string>)
    requires p != [] && !Free(p[|p| - 1], ' ')
    ensures PayloadsOf(p).Err?
  {
    if |p| == 1 {
      assert Free("*", ' ');
      SpacedInt(p[0]);
    } else {
      PayloadsFail(p[1..]);
    }
  }

  /** The formats of a media line come back exactly when there are at most 1024 of them. */
  lemma FormatListExactly(fs: seq<Format>)
    ensures PayloadsOf(Split(FormatList(fs), ' ', MAX_LINE)) == Ok(Bares(fs)) <==> |fs| <= MAX_LINE
  {
    if |fs| <= MAX_LINE {
      FormatListRound(fs);
    } else {
      PayloadsFree(fs);
      hide Split, Free, PayloadsOf, PayloadPieces, JoinAll, Bares;
      SplitOverflow(PayloadPieces(fs), ' ', MAX_LINE);
      PayloadsFail(Merged(PayloadPieces(fs), ' ', MAX_LINE - 1));
    }
  }

  // ---------------------------------------------------------------- offsets

  lemma {:induction false} OffsetsFail(p: seq<string>)
    requires p != [] && !Free(p[|p| - 1], ' ')
    ensures OffsetsOf(p).Err?
  {
    if |p| == 1 {
      SpacedDuration(p[0]);
    } else {
      OffsetsFail(p[1..]);
    }
  }

  /** A repeat line of whole seconds comes back exactly when it has at most 1022 offsets. */
  lemma RepeatExactly(r: Repeat)
    requires GoodDuration(r.interval) && GoodDuration(r.duration) && forall i :: 0 <= i < |r.offsets| ==> GoodDuration(r.offsets[i])
    ensures RepeatOf(RepeatText(r)) == Ok(r) <==> |r.offsets| <= 1022
  {
    if |r.offsets| <= 1022 {
      RepeatRound(r);
    } else {
      DurationFree(r.interval);
      DurationFree(r.duration);
      OffsetsFree(r.offsets);
      hide Split, Free, DurationText, DurationOf, OffsetsOf, OffsetPieces, JoinAll, GoodDuration;
      var p := [DurationText(r.interval), DurationText(r.duration)] + OffsetPieces(r.offsets);
      SplitOverflow(p, ' ', MAX_LINE);
      OffsetsFail(Merged(p, ' ', MAX_LINE - 1)[2..]);
    }
  }

  // ---------------------------------------------------------------- time zones

  lemma {:induction false} ZonesFail(p: seq<string>)
    requires p != [] && |p| % 2 == 0 && !Free(p[|p| - 1], ' ')
    ensures ZonesFrom(p).Err?
  {
    if |p| == 2 {
      SpacedDuration(p[1]);
    } else {
      ZonesFail(p[2..]);
    }
  }

  /** Time zones of whole seconds come back exactly when there are at most 20 of them. */
  lemma ZonesExactly(zs: seq<TimeZone>)
    requires zs != [] && forall i :: 0 <= i < |zs| ==> GoodZone(zs[i])
    ensures ZonesOf(JoinAll(ZonePieces(zs), ' ')) == Ok(zs) <==> |zs| <= 20
  {
    hide ZonesOf, GoodZone, JoinAll, ZonePieces;
    if |zs| <= 20 {
      ZonesRound(zs);
    } else {
      ZonesTooMany(zs);
    }
  }

  lemma ZonesTooMany(zs: seq<TimeZone>)
    requires |zs| > 20
    ensures ZonesOf(JoinAll(ZonePieces(zs), ' ')).Err?
  {
    hide Split, Free, ZonesFrom, ZonePieces, JoinAll;
    ZonesFree(zs);
    SplitOverflow(ZonePieces(zs), ' ', 40);
    ZonesFail(Merged(ZonePieces(zs), ' ', 39));
  }
}
