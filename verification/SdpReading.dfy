/**
 Lines that the encoder does not write: what the decoder makes of other spellings, and what it refuses.
 */
module SdpReading {
  import opened Text
  import opened Sdp
  import opened SdpParse
  import opened SdpFields

  // ---------------------------------------------------------------- how many pieces there are

  function Times(s: string, c: char): nat { if s == "" then 0 else (if s[0] == c then 1 else 0) + Times(s[1..], c) }

  lemma {:induction false} FirstPlace(s: string, c: char)
    ensures IndexOf(s, c) == |s| <==> Times(s, c) == 0
    ensures IndexOf(s, c) < |s| ==> Times(s, c) == 1 + Times(s[IndexOf(s, c) + 1..], c)
  {
    if s != "" && s[0] != c {
      FirstPlace(s[1..], c);
      assert IndexOf(s, c) == 1 + IndexOf(s[1..], c);
      assert IndexOf(s, c) < |s| ==> s[1..][IndexOf(s[1..], c) + 1..] == s[IndexOf(s, c) + 1..];
    }
  }

  /** A text is cut at every separator, until there are as many pieces as may be. */
  lemma {:induction false} PiecesExactly(s: string, sep: char, n: nat)
    requires n >= 1
    ensures |Split(s, sep, n)| == if Times(s, sep) < n then Times(s, sep) + 1 else n
    decreases |s|
  {
    FirstPlace(s, sep);
    var k := IndexOf(s, sep);
    if n > 1 && k < |s| {
      PiecesExactly(s[k + 1..], sep, n - 1);
    }
  }

  // ---------------------------------------------------------------- lines that are refused

  /** Lines of the header, and of a media section. */
  predicate HeaderKind(f: char) { f in {'v', 'o', 's', 'i', 'u', 'e', 'p', 'c', 'b', 'z', 'k', 'a', 't', 'r', 'm'} }

  predicate MediaKind(f: char) { f in {'m', 'i', 'c', 'b', 'k', 'a', 'y', 'f'} }

  predicate Repeated(s: Session, f: char) { s.media == [] && ((f == 'o' && s.origin.Some?) || (f == 'c' && s.connection.Some?)) }

  predicate Expected<T>(r: Result<T>) { r.Err? ==> r.kind != UnexpectedField }

  lemma {:induction false} ZonesExpected(p: seq<string>)
    ensures Expected(ZonesFrom(p))
    decreases |p|
  {
    if |p| > 1 {
      ZonesExpected(p[2..]);
    }
  }

  lemma {:induction false} OffsetsExpected(p: seq<string>)
    ensures Expected(OffsetsOf(p))
  {
    if p != [] {
      OffsetsExpected(p[1..]);
    }
  }

  lemma {:induction false} PayloadsExpected(p: seq<string>)
    ensures Expected(PayloadsOf(p))
  {
    if p != [] {
      PayloadsExpected(p[1..]);
    }
  }

  lemma ValuesExpected(b: Bandwidth, v: string)
    ensures Expected(OriginOf(v)) && Expected(ConnectionOf(v)) && Expected(BandwidthOf(b, v)) && Expected(TimingOf(v))
  {
  }

  lemma ListsExpected(m: Media, v: string)
    ensures Expected(ZonesOf(v)) && Expected(RepeatOf(v)) && Expected(ProtoOf(m, v))
  {
    ZonesExpected(Split(v, ' ', 40));
    RepeatExpected(v);
    ProtoExpected(m, v);
  }

  lemma RepeatExpected(v: string)
    ensures Expected(RepeatOf(v))
  {
    hide Split, Unit, Wrap64;
    if |Split(v, ' ', MAX_LINE)| >= 2 {
      OffsetsExpected(Split(v, ' ', MAX_LINE)[2..]);
    }
  }

  lemma ProtoExpected(m: Media, v: string)
    ensures Expected(ProtoOf(m, v))
  {
    hide Split, PayloadsOf;
    if |Split(v, ' ', 4)| == 4 {
      PayloadsExpected(Split(Split(v, ' ', 4)[3], ' ', MAX_LINE));
    }
  }

  lemma AttributeExpected(m: Media, a: Attr)
    ensures Expected(FormatAttribute(m, a))
  {
  }

  lemma MediaUnexpected(m: Media, f: char, v: string)
    ensures MediaField(m, f, v) == Err(UnexpectedField) <==> !MediaKind(f)
  {
    hide ConnectionOf, BandwidthOf, ProtoOf, FormatAttribute, AttrOf, KeyOf, IsMode, IsFormatAttribute, OriginOf, TimingOf, ZonesOf, RepeatOf;
    ValuesExpected(m.bandwidth, v);
    ListsExpected(m, v);
    AttributeExpected(m, AttrOf(v));
  }

  lemma HeaderUnexpected(s: Session, f: char, v: string)
    requires s.media == [] && f != 'm'
    ensures SessionField(s, f, v) == Err(UnexpectedField) <==> Repeated(s, f) || !HeaderKind(f)
  {
    hide OriginOf, ConnectionOf, BandwidthOf, ZonesOf, TimingOf, RepeatOf, Int, AttrOf, KeyOf, IsMode, ProtoOf;
    ValuesExpected(s.bandwidth, v);
    ListsExpected(NO_MEDIA, v);
    NumberExpected(v);
  }

  lemma NumberExpected(v: string)
    ensures Expected(Int(v))
  {
  }

  /** A line is unexpected if and only if its kind does not belong where it stands, or it is a second origin or connection. */
  lemma UnexpectedExactly(s: Session, f: char, v: string)
    ensures Field(s, f, v) == Err(UnexpectedField) <==>
              Repeated(s, f) || (if s.media == [] then !HeaderKind(f) else !MediaKind(f))
  {
    hide SessionField, MediaField;
    MediaUnexpected(NO_MEDIA, f, v);
    if s.media == [] {
      if f != 'm' {
        HeaderUnexpected(s, f, v);
      }
    } else {
      MediaUnexpected(s.media[|s.media| - 1], f, v);
    }
  }

  /** Too few pieces: an origin has six, a connection and a media line's first part three and four, and so on. */
  lemma TooFewPieces(b: Bandwidth, m: Media, a: Attr, v: string)
    ensures Times(v, ' ') < 5 ==> OriginOf(v) == Err(BadFormat)
    ensures Times(v, ' ') < 3 ==> ProtoOf(m, v) == Err(BadFormat)
    ensures Times(v, ' ') < 2 ==> ConnectionOf(v) == Err(BadFormat)
    ensures Times(v, ' ') < 1 ==> TimingOf(v) == Err(BadFormat) && RepeatOf(v) == Err(BadFormat)
    ensures Times(v, ':') < 1 ==> BandwidthOf(b, v) == Err(BadFormat) && KeyOf(v) == Key(v, "") && AttrOf(v) == Attr(v, "")
    ensures Times(a.value, ' ') < 1 ==> FormatAttribute(m, a) == Err(BadFormat)
  {
    hide Split;
    PiecesExactly(v, ' ', 6);
    PiecesExactly(v, ' ', 4);
    PiecesExactly(v, ' ', 3);
    PiecesExactly(v, ' ', 2);
    PiecesExactly(v, ' ', MAX_LINE);
    PiecesExactly(v, ':', 2);
    PiecesExactly(a.value, ' ', 2);
  }

  // ---------------------------------------------------------------- other spellings

  /** A duration in days, hours, minutes or seconds, in nanoseconds of 64 bits. */
  lemma DurationSpelled(n: int64, unit: string)
    requires unit in {"d", "h", "m", "s", ""}
    ensures
      var factor := if unit == "d" then 86_400 else if unit == "h" then 3_600 else if unit == "m" then 60 else 1;
      && DurationOf(Show(n) + unit).Ok?
      && (DurationOf(Show(n) + unit).value - n * factor * 1_000_000_000) % 0x1_0000_0000_0000_0000 == 0
  {
    var digits := Show(n);
    var v := digits + unit;
    IntRound(n);
    assert digits[|digits| - 1] != 'd' && digits[|digits| - 1] != 'h' && digits[|digits| - 1] != 'm' && digits[|digits| - 1] != 's' by {
      LastDigit(n);
    }
    if unit == "" {
      assert v == digits;
    } else {
      assert v[|v| - 1] == unit[0] && v[..|v| - 1] == digits;
    }
    var factor := if unit == "d" then 86_400 else if unit == "h" then 3_600 else if unit == "m" then 60 else 1;
    assert Unit(v) == (factor, digits);
    WrappedTwice(n, factor);
  }

  lemma LastDigit(n: int)
    ensures Show(n) != "" && IsDigit(Show(n)[|Show(n)| - 1])
  {
  }

  lemma WrappedTwice(n: int, factor: int)
    ensures (Wrap64(Wrap64(n * factor) * SECOND) - n * factor * SECOND) % 0x1_0000_0000_0000_0000 == 0
  {
    var a: int, b: int := Wrap64(n * factor), Wrap64(Wrap64(n * factor) * SECOND);
    var k := WrapsBy(n * factor);
    var l := WrapsBy(a * SECOND);
    hide Wrap64;
    Scaled(a, n * factor, k, l, b);
    Vanishes(k * SECOND + l);
  }

  lemma Scaled(a: int, x: int, k: int, l: int, b: int)
    requires a == x + k * 0x1_0000_0000_0000_0000 && b == a * SECOND + l * 0x1_0000_0000_0000_0000
    ensures b - x * SECOND == (k * SECOND + l) * 0x1_0000_0000_0000_0000
  {
  }

  lemma Vanishes(k: int)
    ensures (k * 0x1_0000_0000_0000_0000) % 0x1_0000_0000_0000_0000 == 0
  {
  }

  lemma WrapsBy(n: int) returns (k: int)
    ensures Wrap64(n) == n + k * 0x1_0000_0000_0000_0000
  {
    k := -((n - MIN_INT64) / 0x1_0000_0000_0000_0000);
  }

  /** A format map without a clock rate has 90000; one without channels leaves them alone. */
  lemma FormatMapSpelled(f: Format, name: string, rate: int64)
    requires Free(name, '/')
    ensures RtpmapOf(f, name) == Ok(f.(name := name, clockRate := 90000))
    ensures RtpmapOf(f, name + "/" + Show(rate)) == Ok(f.(name := name, clockRate := rate))
  {
    hide Split, Show, Int, Free;
    SplitWhole(name, '/', 3);
    assert Free("90000", '/') by { DefaultRate(); }
    TwoPieces(name, "90000", '/', 3);
    ShowFree(rate, '/');
    TwoPieces(name, Show(rate), '/', 3);
    IntRound(rate);
    IntRound(90000);
    DefaultRate();
    assert name + ['/'] + "90000" == name + "/90000" && name + ['/'] + Show(rate) == name + "/" + Show(rate);
  }

  lemma DefaultRate()
    ensures Show(90000) == "90000" && Free("90000", '/')
  {
    assert Show(9) == "9" && Show(90) == "90" && Show(900) == "900" && Show(9000) == "9000";
  }

  lemma TwoPieces(a: string, b: string, sep: char, n: nat)
    requires Free(a, sep) && Free(b, sep) && n >= 2
    ensures Split(a + [sep] + b, sep, n) == [a, b]
  {
    SplitHead(a, sep, b, n);
    SplitWhole(b, sep, n - 1);
  }

  /** An attribute of a payload type that the section does not have is skipped over. */
  lemma UnknownPayloadIgnored(m: Media, a: Attr, payload: int64, v: string)
    requires a.value == Show(payload) + " " + v && forall i :: 0 <= i < |m.formats| ==> m.formats[i].payload != payload
    ensures FormatAttribute(m, a) == Ok(m)
  {
    ShowFree(payload, ' ');
    SplitHead(Show(payload), ' ', v, 2);
    IntRound(payload);
    hide Split;
  }

  /** Stars in a list of payload types count for nothing. */
  lemma {:induction false} StarsIgnored(p: seq<string>, q: seq<string>)
    ensures PayloadsOf(p + ["*"] + q) == PayloadsOf(p + q)
  {
    if p == [] {
      assert p + ["*"] + q == ["*"] + q && p + q == q && (["*"] + q)[1..] == q;
    } else {
      assert (p + ["*"] + q)[1..] == p[1..] + ["*"] + q && (p + q)[1..] == p[1..] + q;
      StarsIgnored(p[1..], q);
    }
  }

  /** A media line's port may have a number of ports after a slash. */
  lemma PortSpelled(m: Media, typ: string, port: int64, number: int64, proto: string, payload: int64)
    requires Free(typ, ' ') && Free(proto, ' ')
    ensures
      var r := m.(typ := typ, port := port, proto := proto, formats := m.formats + [Format(payload, "", 0, 0, [], [])]);
      && ProtoOf(m, typ + " " + (Show(port) + " " + (proto + " " + Show(payload)))) == Ok(r)
      && ProtoOf(m, typ + " " + (Show(port) + "/" + Show(number) + " " + (proto + " " + Show(payload)))) == Ok(r.(portNum := number))
  {
    hide Split, PayloadsOf, Show, Int, Free;
    PortFreeOfSpace(port, number);
    FourPieces(typ, Show(port), proto, payload);
    FourPieces(typ, Show(port) + "/" + Show(number), proto, payload);
    SplitWhole(Show(port), '/', 2);
    TwoPieces(Show(port), Show(number), '/', 2);
    assert Show(port) + ['/'] + Show(number) == Show(port) + "/" + Show(number);
    IntRound(port);
    IntRound(number);
    OnePayload(payload);
  }

  lemma PortFreeOfSpace(port: int64, number: int64)
    ensures Free(Show(port), ' ') && Free(Show(port) + "/" + Show(number), ' ') && Free(Show(port), '/') && Free(Show(number), '/')
  {
    ShowFree(port, ' ');
    ShowFree(number, ' ');
    ShowFree(port, '/');
    ShowFree(number, '/');
  }

  lemma AfterSpace(a: string, rest: string, n: nat)
    requires Free(a, ' ') && n >= 2
    ensures Split(a + " " + rest, ' ', n) == [a] + Split(rest, ' ', n - 1)
  {
    assert a + " " + rest == a + [' '] + rest;
    SplitHead(a, ' ', rest, n);
    hide Split;
  }

  lemma OneMore(a: string, rest: string, b: string, c: string)
    requires Free(a, ' ') && Split(rest, ' ', 2) == [b, c]
    ensures Split(a + " " + rest, ' ', 3) == [a, b, c]
  {
    AfterSpace(a, rest, 3);
    hide Split, Free;
  }

  lemma TwoMore(typ: string, port: string, rest: string, c: string, d: string)
    requires Free(typ, ' ') && Free(port, ' ') && Split(rest, ' ', 2) == [c, d]
    ensures Split(typ + " " + (port + " " + rest), ' ', 4) == [typ, port, c, d]
  {
    OneMore(port, rest, c, d);
    AfterSpace(typ, port + " " + rest, 4);
    hide Split, Free;
  }

  lemma FourPieces(typ: string, port: string, proto: string, payload: int64)
    requires Free(typ, ' ') && Free(proto, ' ') && Free(port, ' ')
    ensures Split(typ + " " + (port + " " + (proto + " " + Show(payload))), ' ', 4) == [typ, port, proto, Show(payload)]
  {
    ShowFree(payload, ' ');
    hide Split, Free, Show;
    AfterSpace(proto, Show(payload), 2);
    SplitWhole(Show(payload), ' ', 1);
    TwoMore(typ, port, proto + " " + Show(payload), proto, Show(payload));
  }

  lemma OnePayload(payload: int64)
    ensures PayloadsOf(Split(Show(payload), ' ', MAX_LINE)) == Ok([Format(payload, "", 0, 0, [], [])])
  {
    hide Show;
    ShowFree(payload, ' ');
    SplitWhole(Show(payload), ' ', MAX_LINE);
    IntRound(payload);
    NotStar(payload);
    var none: seq<string> := [];
    assert [Show(payload)][0] == Show(payload) && [Show(payload)][1..] == none && PayloadsOf(none) == Ok([]);
    assert PayloadsOf([Show(payload)]) == Ok([Bare(payload)] + []);
    assert [Bare(payload)] + [] == [Bare(payload)];
  }

  lemma NotStar(n: int)
    ensures Show(n) != "*"
  {
    LastDigit(n);
  }

  /** An address alone, with a number of addresses, and with a time to live, which takes the address's place. */
  lemma AddressSpelled(network: string, typ: string, address: string, n: int64, ttl: int64)
    requires Free(network, ' ') && Free(typ, ' ') && Free(address, '/')
    ensures ConnectionOf(network + " " + (typ + " " + address)) == Ok(Connection(network, typ, address, 0, 0))
    ensures ConnectionOf(network + " " + (typ + " " + (address + "/" + Show(n)))) == Ok(Connection(network, typ, address, 0, n))
    ensures ConnectionOf(network + " " + (typ + " " + (address + "/" + (Show(ttl) + "/" + Show(n))))) == Ok(Connection(network, typ, Show(ttl), ttl, n))
  {
    ShowFree(n, '/');
    ShowFree(ttl, '/');
    IntRound(n);
    IntRound(ttl);
    ThreePieces(network, typ, address);
    ThreePieces(network, typ, address + "/" + Show(n));
    ThreePieces(network, typ, address + "/" + (Show(ttl) + "/" + Show(n)));
    SplitWhole(address, '/', 3);
    TwoPieces(address, Show(n), '/', 3);
    SplitHead(address, '/', Show(ttl) + "/" + Show(n), 3);
    TwoPieces(Show(ttl), Show(n), '/', 2);
    hide Split;
  }

  lemma ThreePieces(a: string, b: string, c: string)
    requires Free(a, ' ') && Free(b, ' ')
    ensures Split(a + " " + (b + " " + c), ' ', 3) == [a, b, c]
  {
    SplitHead(a, ' ', b + " " + c, 3);
    SplitHead(b, ' ', c, 2);
    SplitWhole(c, ' ', 1);
  }
}
