/**
 Each line value read back: numbers, times, durations, transports, lists.
 */
module SdpFields {
  import opened Text
  import opened Sdp
  import opened SdpParse

  // ---------------------------------------------------------------- cutting

  lemma {:induction false} IndexOfFirst(a: string, c: char, rest: string)
    requires Free(a, c)
    ensures IndexOf(a + [c] + rest, c) == |a|
  {
    if a != "" {
      assert (a + [c] + rest)[1..] == a[1..] + [c] + rest;
      IndexOfFirst(a[1..], c, rest);
    }
  }

  /** The first piece comes off at the first separator. */
  lemma SplitHead(a: string, sep: char, rest: string, n: nat)
    requires Free(a, sep) && n >= 2
    ensures Split(a + [sep] + rest, sep, n) == [a] + Split(rest, sep, n - 1)
  {
    IndexOfFirst(a, sep, rest);
    var s := a + [sep] + rest;
    assert s[..|a|] == a && s[|a| + 1..] == rest;
  }

  lemma SplitWhole(a: string, sep: char, n: nat)
    requires n >= 1 && (n == 1 || Free(a, sep))
    ensures Split(a, sep, n) == [a]
  {
  }

  /** Only the last piece, and only when the limit is reached, may hold separators. */
  predicate Separable(parts: seq<string>, sep: char, n: nat)
  {
    && 0 < |parts| <= n
    && (forall i :: 0 <= i < |parts| - 1 ==> Free(parts[i], sep))
    && (|parts| < n ==> Free(parts[|parts| - 1], sep))
  }

  /** Joining then splitting gives the pieces back. */
  lemma {:induction false} SplitJoinAll(parts: seq<string>, sep: char, n: nat)
    requires Separable(parts, sep, n)
    ensures Split(JoinAll(parts, sep), sep, n) == parts
    decreases |parts|
  {
    hide Split, Free;
    if |parts| == 1 {
      SplitWhole(parts[0], sep, n);
    } else {
      SplitJoinAll(parts[1..], sep, n - 1);
      SplitHead(parts[0], sep, JoinAll(parts[1..], sep), n);
      assert [parts[0]] + parts[1..] == parts;
    }
  }

  // ---------------------------------------------------------------- numbers

  lemma ShowFree(n: int, c: char)
    requires c != '-' && !IsDigit(c)
    ensures Free(Show(n), c)
  {
  }

  lemma IntRound(n: int64)
    ensures Int(Show(n)) == Ok(n)
  {
    ParseShow(n);
  }

  /** An instant comes back if and only if it has whole seconds and is not the Unix epoch, which reads as the zero time. */
  lemma TimeExactly(t: Time)
    ensures TimeOf(TimeText(t)) == Ok(t) <==> t.nsec == 0 && t.sec != 0
  {
    if t != ZERO_TIME {
      IntRound(t.sec);
    } else {
      IntRound(0);
      assert Show(0) == "0";
    }
  }

  lemma TimeFree(t: Time)
    ensures Free(TimeText(t), ' ')
  {
    ShowFree(t.sec, ' ');
  }

  lemma UnitOfSuffix(digits: string, c: char)
    requires c == 'd' || c == 'h' || c == 'm'
    ensures Unit(digits + [c]) == (if c == 'd' then 86400 else if c == 'h' then 3600 else 60, digits)
  {
    var v := digits + [c];
    assert v[|v| - 1] == c && v[..|v| - 1] == digits;
  }

  lemma UnitOfNumber(n: int)
    ensures Unit(Show(n)) == (1, Show(n))
  {
  }

  lemma WrapIdentity(n: int64)
    ensures Wrap64(n) == n
  {
  }

  lemma DurationOfParts(text: string, m: int, digits: string, n: int64, d: Duration)
    requires Unit(text) == (m, digits) && Int(digits) == Ok(n) && n * m * SECOND == d
    ensures DurationOf(text) == Ok(d)
  {
    hide Unit, Int, Wrap64;
    assert IsInt64(n * m);
    WrapIdentity(n * m);
    WrapIdentity(d);
  }

  lemma Exactly(v: int, unit: int)
    requires unit > 0 && v % unit == 0
    ensures v / unit * unit == v
  {
  }

  lemma DurationInUnit(n: int64, c: char, d: Duration)
    requires c == 'd' || c == 'h' || c == 'm'
    requires n * (if c == 'd' then 86400 else if c == 'h' then 3600 else 60) * SECOND == d
    ensures DurationOf(Show(n) + [c]) == Ok(d)
  {
    UnitOfSuffix(Show(n), c);
    IntRound(n);
    hide Unit, Int, DurationOf, Show;
    DurationOfParts(Show(n) + [c], if c == 'd' then 86400 else if c == 'h' then 3600 else 60, Show(n), n, d);
  }

  /** A whole number of seconds survives, whatever unit it is written in. */
  lemma DurationRound(d: Duration)
    requires GoodDuration(d)
    ensures DurationOf(DurationText(d)) == Ok(d)
  {
    var v := Seconds(d);
    assert v * SECOND == d;
    hide Unit, Int, DurationOf, Seconds;
    if v == 0 {
      assert Show(0) == "0";
      UnitOfNumber(0);
      IntRound(0);
      DurationOfParts("0", 1, "0", 0, d);
    } else if v % 86400 == 0 {
      Exactly(v, 86400);
      DurationInUnit(v / 86400, 'd', d);
    } else if v % 3600 == 0 {
      Exactly(v, 3600);
      DurationInUnit(v / 3600, 'h', d);
    } else if v % 60 == 0 {
      Exactly(v, 60);
      DurationInUnit(v / 60, 'm', d);
    } else {
      UnitOfNumber(v);
      IntRound(v);
      DurationOfParts(Show(v), 1, Show(v), v, d);
    }
  }

  lemma DurationFree(d: Duration)
    ensures Free(DurationText(d), ' ')
  {
    var v := Seconds(d);
    ShowFree(v / 86400, ' ');
    ShowFree(v / 3600, ' ');
    ShowFree(v / 60, ' ');
    ShowFree(v, ' ');
  }

  // ---------------------------------------------------------------- transports

  lemma DefaultFree(s: string, c: char)
    requires Lacks(s, c) && c != 'I' && c != 'N' && c != 'P' && c != '4'
    ensures Free(Default(s, "IN"), c) && Free(Default(s, "IP4"), c)
  {
  }

  lemma AddressFree(s: string)
    requires Lacks(s, '/')
    ensures Free(Default(s, "127.0.0.1"), '/')
  {
  }

  lemma DashFree(s: string, c: char)
    requires Lacks(s, c) && c != '-'
    ensures Free(Dash(s), c)
  {
  }

  lemma OriginRound(o: Origin)
    requires GoodOrigin(o)
    ensures OriginOf(OriginText(o)) == Ok(NormOrigin(o))
  {
    var p := [Dash(o.username), Show(o.sessionId), Show(o.sessionVersion)] + TransportPieces(o.network, o.typ, o.address);
    DashFree(o.username, ' ');
    DefaultFree(o.network, ' ');
    DefaultFree(o.typ, ' ');
    ShowFree(o.sessionId, ' ');
    ShowFree(o.sessionVersion, ' ');
    hide Split, Free, Show, Int, JoinAll;
    SplitJoinAll(p, ' ', 6);
    IntRound(o.sessionId);
    IntRound(o.sessionVersion);
  }

  /** What the decoder makes of an encoded connection whose address has no slash. */
  lemma ConnectionReads(c: Connection)
    requires Lacks(c.network, ' ') && Lacks(c.typ, ' ') && Lacks(c.address, '/')
    ensures ConnectionOf(ConnectionText(c)) == Ok(
      if c.ttl > 0 && c.addressNum > 1 then NormConnection(c).(address := Show(c.ttl))
      else if c.ttl > 0 then NormConnection(c).(ttl := 0, addressNum := c.ttl)
      else NormConnection(c).(ttl := 0, addressNum := if c.addressNum > 1 then c.addressNum else 0))
  {
    var tail := JoinAll(AddressPieces(c), '/');
    DefaultFree(c.network, ' ');
    DefaultFree(c.typ, ' ');
    AddressFree(c.address);
    ShowFree(c.ttl, '/');
    ShowFree(c.addressNum, '/');
    assert c.ttl <= 0 && c.addressNum <= 1 ==> tail == Default(c.address, "127.0.0.1");
    hide Split, Free, Show, Int, JoinAll, Lacks;
    SplitJoinAll([Default(c.network, "IN"), Default(c.typ, "IP4"), tail], ' ', 3);
    SplitJoinAll(AddressPieces(c), '/', 3);
    IntRound(c.ttl);
    IntRound(c.addressNum);
  }

  /**
   A connection comes back exactly when it has no TTL and no single-address or negative count; with a
   TTL and a count the TTL is taken for the address, which shows unless the two are written alike.
   */
  lemma ConnectionRoundTripExactly(c: Connection)
    requires Lacks(c.network, ' ') && Lacks(c.typ, ' ') && Lacks(c.address, '/')
    ensures ConnectionOf(ConnectionText(c)) == Ok(NormConnection(c))
       <==> || (c.ttl == 0 && (c.addressNum == 0 || c.addressNum >= 2))
            || (c.ttl > 0 && c.addressNum > 1 && c.address == Show(c.ttl))
  {
    ConnectionReads(c);
    hide ConnectionOf, ConnectionText, Show, Lacks;
  }

  // ---------------------------------------------------------------- pairs

  lemma PairPieces(name: string, value: string)
    requires Lacks(name, ':')
    ensures Split(PairText(name, value), ':', 2) == if value == "" then [Dash(name)] else [Dash(name), value]
  {
    DashFree(name, ':');
    hide Split, Free, JoinAll, Lacks, Dash;
    if value == "" {
      SplitWhole(Dash(name), ':', 2);
    } else {
      SplitJoinAll([Dash(name), value], ':', 2);
    }
  }

  lemma KeyRound(k: Key)
    requires GoodKey(k)
    ensures KeyOf(PairText(k.kind, k.value)) == NormKey(k)
  {
    hide Split, Free;
    PairPieces(k.kind, k.value);
  }

  lemma AttrRound(x: Attr)
    requires Lacks(x.name, ':')
    ensures AttrOf(PairText(x.name, x.value)) == NormAttr(x)
  {
    hide Split, Free;
    PairPieces(x.name, x.value);
  }

  lemma BandwidthRound(b: Bandwidth, k: string, n: int64)
    requires k != "" && Lacks(k, ':')
    ensures BandwidthOf(b, JoinAll([Dash(k), Show(n)], ':')) == Ok(b[k := n])
  {
    hide Split, Show, JoinAll, Int;
    SplitJoinAll([Dash(k), Show(n)], ':', 2);
    IntRound(n);
  }

  // ---------------------------------------------------------------- times

  lemma TimingRound(t: Option<Timing>)
    requires t.Some? ==> GoodTime(t.value.start) && GoodTime(t.value.stop)
    ensures TimingOf(TimingText(t)) == Ok(if t.Some? then t.value else Timing(ZERO_TIME, ZERO_TIME))
  {
    var start := if t.Some? then t.value.start else ZERO_TIME;
    var stop := if t.Some? then t.value.stop else ZERO_TIME;
    TimeFree(start);
    TimeExactly(start);
    TimeExactly(stop);
    assert "0 0" == "0" + [' '] + "0";
    assert [TimeText(start), TimeText(stop)][1..] == [TimeText(stop)];
    assert TimingText(t) == JoinAll([TimeText(start), TimeText(stop)], ' ');
    hide Split, Free, TimeText, TimeOf, JoinAll, TimingText;
    SplitJoinAll([TimeText(start), TimeText(stop)], ' ', 2);
  }

  lemma {:induction false} ZonesFree(zs: seq<TimeZone>)
    ensures forall i :: 0 <= i < |ZonePieces(zs)| ==> Free(ZonePieces(zs)[i], ' ')
  {
    if zs != [] {
      TimeFree(zs[0].time);
      DurationFree(zs[0].offset);
      hide Free, TimeText, DurationText;
      ZonesFree(zs[1..]);
    }
  }

  lemma ZonesStep(p: seq<string>, z: TimeZone, rest: seq<TimeZone>)
    requires |p| >= 2 && TimeOf(p[0]) == Ok(z.time) && DurationOf(p[1]) == Ok(z.offset) && ZonesFrom(p[2..]) == Ok(rest)
    ensures ZonesFrom(p) == Ok([z] + rest)
  {
    hide TimeOf, DurationOf;
  }

  lemma {:induction false} ZonesRead(zs: seq<TimeZone>)
    requires forall i :: 0 <= i < |zs| ==> GoodZone(zs[i])
    ensures ZonesFrom(ZonePieces(zs)) == Ok(zs)
  {
    if zs != [] {
      TimeExactly(zs[0].time);
      DurationRound(zs[0].offset);
      hide TimeOf, DurationOf, TimeText, DurationText, GoodTime, GoodDuration, ZonesFrom;
      ZonesRead(zs[1..]);
      var p := ZonePieces(zs);
      assert p[0] == TimeText(zs[0].time) && p[1] == DurationText(zs[0].offset) && p[2..] == ZonePieces(zs[1..]);
      ZonesStep(p, zs[0], zs[1..]);
      assert [zs[0]] + zs[1..] == zs;
    } else {
      assert ZonePieces(zs) == [];
    }
  }

  lemma ZonesRound(zs: seq<TimeZone>)
    requires 0 < |zs| <= 20 && forall i :: 0 <= i < |zs| ==> GoodZone(zs[i])
    ensures ZonesOf(JoinAll(ZonePieces(zs), ' ')) == Ok(zs)
  {
    ZonesFree(zs);
    ZonesRead(zs);
    hide Split, Free, ZonesFrom, ZonePieces, JoinAll;
    SplitJoinAll(ZonePieces(zs), ' ', 40);
  }

  lemma {:induction false} OffsetsFree(ds: seq<Duration>)
    ensures forall i :: 0 <= i < |OffsetPieces(ds)| ==> Free(OffsetPieces(ds)[i], ' ')
  {
    if ds != [] {
      DurationFree(ds[0]);
      hide Free, DurationText;
      OffsetsFree(ds[1..]);
    }
  }

  lemma OffsetsStep(p: seq<string>, d: Duration, rest: seq<Duration>)
    requires p != [] && DurationOf(p[0]) == Ok(d) && OffsetsOf(p[1..]) == Ok(rest)
    ensures OffsetsOf(p) == Ok([d] + rest)
  {
    hide DurationOf;
  }

  lemma {:induction false} OffsetsRead(ds: seq<Duration>)
    requires forall i :: 0 <= i < |ds| ==> GoodDuration(ds[i])
    ensures OffsetsOf(OffsetPieces(ds)) == Ok(ds)
  {
    if ds != [] {
      DurationRound(ds[0]);
      hide DurationOf, DurationText, GoodDuration, OffsetsOf;
      OffsetsRead(ds[1..]);
      var p := OffsetPieces(ds);
      assert p[0] == DurationText(ds[0]) && p[1..] == OffsetPieces(ds[1..]);
      OffsetsStep(p, ds[0], ds[1..]);
      assert [ds[0]] + ds[1..] == ds;
    }
  }

  lemma RepeatRound(r: Repeat)
    requires GoodRepeat(r)
    ensures RepeatOf(RepeatText(r)) == Ok(r)
  {
    var p := [DurationText(r.interval), DurationText(r.duration)] + OffsetPieces(r.offsets);
    DurationFree(r.interval);
    DurationFree(r.duration);
    OffsetsFree(r.offsets);
    DurationRound(r.interval);
    DurationRound(r.duration);
    OffsetsRead(r.offsets);
    hide Split, Free, DurationText, DurationOf, OffsetsOf, OffsetPieces, JoinAll, GoodDuration;
    SplitJoinAll(p, ' ', MAX_LINE);
    assert p[2..] == OffsetPieces(r.offsets);
  }

  // ---------------------------------------------------------------- media lines

  function Bares(fs: seq<Format>): (r: seq<Format>)
    ensures |r| == |fs|
    ensures forall i :: 0 <= i < |fs| ==> r[i] == Bare(fs[i].payload)
  {
    if fs == [] then [] else [Bare(fs[0].payload)] + Bares(fs[1..])
  }

  lemma {:induction false} PayloadsFree(fs: seq<Format>)
    ensures forall i :: 0 <= i < |PayloadPieces(fs)| ==> Free(PayloadPieces(fs)[i], ' ')
  {
    if fs != [] {
      ShowFree(fs[0].payload, ' ');
      hide Free, Show;
      PayloadsFree(fs[1..]);
    }
  }

  lemma PayloadsStep(p: seq<string>, pt: int64, rest: seq<Format>)
    requires p != [] && p[0] != "*" && Int(p[0]) == Ok(pt) && PayloadsOf(p[1..]) == Ok(rest)
    ensures PayloadsOf(p) == Ok([Bare(pt)] + rest)
  {
    hide Int;
  }

  lemma {:induction false} PayloadsRead(fs: seq<Format>)
    ensures PayloadsOf(PayloadPieces(fs)) == Ok(Bares(fs))
  {
    if fs != [] {
      IntRound(fs[0].payload);
      assert Show(fs[0].payload)[0] != '*';
      hide Int, Show, PayloadsOf;
      PayloadsRead(fs[1..]);
      var p := PayloadPieces(fs);
      assert p[0] == Show(fs[0].payload) && p[1..] == PayloadPieces(fs[1..]);
      PayloadsStep(p, fs[0].payload, Bares(fs[1..]));
    }
  }

  lemma FormatListRound(fs: seq<Format>)
    requires |fs| <= MAX_LINE
    ensures PayloadsOf(Split(FormatList(fs), ' ', MAX_LINE)) == Ok(Bares(fs))
  {
    hide Split, Free, PayloadsOf, PayloadPieces, JoinAll, Bares;
    if fs == [] {
      StarRead();
    } else {
      PayloadsFree(fs);
      PayloadsRead(fs);
      SplitJoinAll(PayloadPieces(fs), ' ', MAX_LINE);
    }
  }

  lemma StarRead()
    ensures PayloadsOf(Split("*", ' ', MAX_LINE)) == Ok(Bares([]))
  {
    SplitWhole("*", ' ', MAX_LINE);
    assert ["*"][1..] == [];
  }

  function PortPieces(m: Media): seq<string> { [Show(m.port)] + (if m.portNum > 0 then [Show(m.portNum)] else []) }

  lemma PortFree(m: Media)
    ensures Free(PortText(m), ' ') && Separable(PortPieces(m), '/', 2)
  {
    ShowFree(m.port, ' ');
    ShowFree(m.portNum, ' ');
    ShowFree(m.port, '/');
    ShowFree(m.portNum, '/');
    hide Show;
    if m.portNum > 0 {
      JoinAllSnoc([Show(m.port)], '/', Show(m.portNum));
      assert PortText(m) == Show(m.port) + ['/'] + Show(m.portNum);
    } else {
      assert PortText(m) == Show(m.port);
    }
  }

  lemma ProtoStep(v: string, p: seq<string>, q: seq<string>, port: int64, portNum: int64, fs: seq<Format>)
    requires Split(v, ' ', 4) == p && |p| == 4 && Split(p[1], '/', 2) == q
    requires Int(q[0]) == Ok(port) && (if |q| == 2 then Int(q[1]) == Ok(portNum) else portNum == 0)
    requires PayloadsOf(Split(p[3], ' ', MAX_LINE)) == Ok(fs)
    ensures ProtoOf(NO_MEDIA, v) == Ok(NO_MEDIA.(typ := p[0], proto := p[2], portNum := portNum, port := port, formats := fs))
  {
    hide Split, PayloadsOf, Int;
    assert NO_MEDIA.formats + fs == fs;
  }

  lemma MediaLineRound(m: Media)
    requires GoodMedia(m)
    ensures ProtoOf(NO_MEDIA, MediaText(m))
         == Ok(NO_MEDIA.(typ := Dash(m.typ), proto := Dash(m.proto), portNum := m.portNum, port := m.port, formats := Bares(m.formats)))
  {
    var p := [Dash(m.typ), PortText(m), Dash(m.proto), FormatList(m.formats)];
    PortFree(m);
    DashFree(m.typ, ' ');
    DashFree(m.proto, ' ');
    FormatListRound(m.formats);
    IntRound(m.port);
    IntRound(m.portNum);
    assert m.portNum >= 0;
    hide Split, ProtoOf, PayloadsOf, Int, Bares, FormatList, Show, Free, JoinAll, GoodMedia, Dash;
    SplitJoinAll(p, ' ', 4);
    SplitJoinAll(PortPieces(m), '/', 2);
    ProtoStep(MediaText(m), p, PortPieces(m), m.port, m.portNum, Bares(m.formats));
  }

  // ---------------------------------------------------------------- format attributes

  lemma RtpmapRound(f: Format, g: Format)
    requires GoodFormat(f) && f.name != "" && g.channels == 0
    ensures RtpmapOf(g, JoinAll(RtpmapPieces(f), '/')) == Ok(g.(name := f.name, channels := f.channels, clockRate := f.clockRate))
  {
    ShowFree(f.clockRate, '/');
    ShowFree(f.channels, '/');
    IntRound(f.clockRate);
    IntRound(f.channels);
    hide Split, Int, Show, Free, JoinAll;
    SplitJoinAll(RtpmapPieces(f), '/', 3);
  }

  /** A payload attribute reaches the format with that payload type. */
  lemma PayloadAttribute(name: string, payload: int64, v: string)
    requires Free(name, ':')
    ensures AttrOf(PayloadText(name, payload, v)) == Attr(name, JoinAll([Show(payload), v], ' '))
    ensures Split(JoinAll([Show(payload), v], ' '), ' ', 2) == [Show(payload), v] && Int(Show(payload)) == Ok(payload)
  {
    ShowFree(payload, ' ');
    IntRound(payload);
    hide Split, Int, Show, Free, JoinAll;
    SplitJoinAll([Show(payload), v], ' ', 2);
    SplitJoinAll([name, JoinAll([Show(payload), v], ' ')], ':', 2);
  }
}
