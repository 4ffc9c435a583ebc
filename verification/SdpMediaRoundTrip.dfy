/**
 Media sections read back, and the round trip of whole sessions.
 */
module SdpMediaRoundTrip {
  import opened Text
  import opened Sdp
  import opened SdpParse
  import opened SdpFields
  import opened SdpLines
  import opened SdpRoundTrip

  /** Reads lines one after the other into one media section. */
  function FoldMedia(m: Media, ls: seq<Line>): Result<Media>
    decreases |ls|
  {
    if ls == [] then Ok(m)
    else
      match MediaField(m, ls[0].kind, ls[0].value)
      case Err(kind) => Err(kind)
      case Ok(m') => FoldMedia(m', ls[1..])
  }

  lemma {:induction false} FoldMediaConcat(m: Media, a: seq<Line>, b: seq<Line>)
    ensures FoldMedia(m, a + b) == if FoldMedia(m, a).Ok? then FoldMedia(FoldMedia(m, a).value, b) else FoldMedia(m, a)
    decreases |a|
  {
    hide MediaField;
    if a == [] {
      assert a + b == b;
    } else {
      assert (a + b)[1..] == a[1..] + b;
      match MediaField(m, a[0].kind, a[0].value)
      case Err(_) =>
      case Ok(m') => FoldMediaConcat(m', a[1..], b);
    }
  }

  lemma FoldMediaMore(m: Media, done: seq<Line>, mid: Media, more: seq<Line>, next: Media)
    requires FoldMedia(m, done) == Ok(mid) && FoldMedia(mid, more) == Ok(next)
    ensures FoldMedia(m, done + more) == Ok(next)
  {
    hide FoldMedia;
    FoldMediaConcat(m, done, more);
  }

  lemma MediaStep(m: Media, l: Line, m': Media, rest: seq<Line>)
    requires MediaField(m, l.kind, l.value) == Ok(m')
    ensures FoldMedia(m, [l] + rest) == FoldMedia(m', rest)
  {
    hide MediaField;
    assert ([l] + rest)[1..] == rest;
  }

  lemma MediaOne(m: Media, kind: char, value: string, m': Media)
    requires MediaField(m, kind, value) == Ok(m')
    ensures FoldMedia(m, [Line(kind, value)]) == Ok(m')
  {
    hide MediaField;
    MediaStep(m, Line(kind, value), m', []);
    assert [Line(kind, value)] + [] == [Line(kind, value)];
  }

  // ---------------------------------------------------------------- plain fields

  lemma OptionalText(m: Media, information: string, ssrc: string, description: string)
    ensures m.information == "" ==> FoldMedia(m, Optional('i', information)) == Ok(m.(information := information))
    ensures m.ssrc == "" ==> FoldMedia(m, Optional('y', ssrc)) == Ok(m.(ssrc := ssrc))
    ensures m.description == "" ==> FoldMedia(m, Optional('f', description)) == Ok(m.(description := description))
  {
    MediaOne(m, 'i', information, m.(information := information));
    MediaOne(m, 'y', ssrc, m.(ssrc := ssrc));
    MediaOne(m, 'f', description, m.(description := description));
  }

  lemma MediaModeField(m: Media, mode: string)
    requires IsMode(mode)
    ensures MediaField(m, 'a', mode) == Ok(m.(mode := mode))
  {
    hide AttrOf, IsMode;
    ModeRound(mode);
  }

  lemma MediaMode(m: Media, mode: string)
    requires m.mode == "" && (mode == "" || IsMode(mode))
    ensures FoldMedia(m, Optional('a', mode)) == Ok(m.(mode := mode))
  {
    hide MediaField, IsMode;
    if mode != "" {
      MediaModeField(m, mode);
      MediaOne(m, 'a', mode, m.(mode := mode));
    }
  }

  lemma MediaConnectionField(m: Media, c: Connection)
    requires GoodConnection(c)
    ensures MediaField(m, 'c', ConnectionText(c)) == Ok(m.(connection := m.connection + [NormConnection(c)]))
  {
    hide ConnectionOf, ConnectionText;
    ConnectionReads(c);
  }

  lemma {:induction false} MediaConnections(m: Media, cs: seq<Connection>)
    requires forall i :: 0 <= i < |cs| ==> GoodConnection(cs[i])
    ensures FoldMedia(m, ConnectionLines(cs)) == Ok(m.(connection := m.connection + MapSeq(NormConnection, cs)))
    decreases |cs|
  {
    hide MediaField, ConnectionText, GoodConnection, NormConnection;
    if cs == [] {
      assert m.connection + [] == m.connection;
    } else {
      var l, m' := Line('c', ConnectionText(cs[0])), m.(connection := m.connection + [NormConnection(cs[0])]);
      MediaConnectionField(m, cs[0]);
      MediaStep(m, l, m', ConnectionLines(cs[1..]));
      MediaConnections(m', cs[1..]);
      assert m.connection + [NormConnection(cs[0])] + MapSeq(NormConnection, cs[1..]) == m.connection + MapSeq(NormConnection, cs);
    }
  }

  lemma MediaBandwidthField(m: Media, k: string, n: int64)
    requires k != "" && Lacks(k, ':')
    ensures MediaField(m, 'b', JoinAll([Dash(k), Show(n)], ':')) == Ok(m.(bandwidth := m.bandwidth[k := n]))
  {
    hide BandwidthOf, JoinAll, Lacks, Show;
    BandwidthRound(m.bandwidth, k, n);
  }

  lemma {:induction false} MediaBandwidth(m: Media, b: Bandwidth, order: seq<string>)
    requires GoodBandwidth(b) && forall k :: k in order ==> k in b
    ensures FoldMedia(m, BandwidthLines(b, order)) == Ok(m.(bandwidth := m.bandwidth + Listed(b, order)))
    decreases |order|
  {
    hide MediaField, JoinAll, Lacks, Show, Dash;
    if order == [] {
      assert m.bandwidth + Listed(b, order) == m.bandwidth;
    } else {
      var k := order[0];
      assert k in order;
      var l, m' := Line('b', JoinAll([Dash(k), Show(b[k])], ':')), m.(bandwidth := m.bandwidth[k := b[k]]);
      MediaBandwidthField(m, k, b[k]);
      MediaStep(m, l, m', BandwidthLines(b, order[1..]));
      ListedStep(b, m.bandwidth, order);
      MediaBandwidth(m', b, order[1..]);
    }
  }

  lemma MediaKeyField(m: Media, k: Key)
    requires GoodKey(k)
    ensures MediaField(m, 'k', PairText(k.kind, k.value)) == Ok(m.(key := m.key + [NormKey(k)]))
  {
    hide KeyOf, PairText, NormKey, GoodKey;
    KeyRound(k);
  }

  lemma {:induction false} MediaKeys(m: Media, ks: seq<Key>)
    requires forall i :: 0 <= i < |ks| ==> GoodKey(ks[i])
    ensures FoldMedia(m, KeyLines(ks)) == Ok(m.(key := m.key + MapSeq(NormKey, ks)))
    decreases |ks|
  {
    hide MediaField, PairText, NormKey, GoodKey;
    if ks == [] {
      assert m.key + [] == m.key;
    } else {
      var l, m' := Line('k', PairText(ks[0].kind, ks[0].value)), m.(key := m.key + [NormKey(ks[0])]);
      MediaKeyField(m, ks[0]);
      MediaStep(m, l, m', KeyLines(ks[1..]));
      MediaKeys(m', ks[1..]);
      assert m.key + [NormKey(ks[0])] + MapSeq(NormKey, ks[1..]) == m.key + MapSeq(NormKey, ks);
    }
  }

  lemma PlainName(x: Attr)
    requires GoodAttr(x) && !IsFormatAttribute(x.name)
    ensures !IsMode(NormAttr(x).name) && !IsFormatAttribute(NormAttr(x).name)
  {
  }

  lemma MediaAttrField(m: Media, x: Attr)
    requires GoodAttr(x) && !IsFormatAttribute(x.name)
    ensures MediaField(m, 'a', PairText(x.name, x.value)) == Ok(m.(attributes := m.attributes + [NormAttr(x)]))
  {
    hide AttrOf, PairText, NormAttr, GoodAttr, IsMode, IsFormatAttribute;
    AttrIsNoMode(x);
    PlainName(x);
  }

  lemma {:induction false} MediaAttrs(m: Media, xs: seq<Attr>)
    requires forall i :: 0 <= i < |xs| ==> GoodAttr(xs[i]) && !IsFormatAttribute(xs[i].name)
    ensures FoldMedia(m, AttrLines(xs)) == Ok(m.(attributes := m.attributes + MapSeq(NormAttr, xs)))
    decreases |xs|
  {
    hide MediaField, PairText, NormAttr, GoodAttr, IsFormatAttribute;
    if xs == [] {
      assert m.attributes + [] == m.attributes;
    } else {
      var l, m' := Line('a', PairText(xs[0].name, xs[0].value)), m.(attributes := m.attributes + [NormAttr(xs[0])]);
      MediaAttrField(m, xs[0]);
      MediaStep(m, l, m', AttrLines(xs[1..]));
      MediaAttrs(m', xs[1..]);
      assert m.attributes + [NormAttr(xs[0])] + MapSeq(NormAttr, xs[1..]) == m.attributes + MapSeq(NormAttr, xs);
    }
  }

  // ---------------------------------------------------------------- formats

  /** What one payload attribute does to the format it names. */
  function Applied(g: Format, name: string, v: string): Result<Format>
  {
    if name == "rtpmap" then RtpmapOf(g, v)
    else if name == "rtcp-fb" then Ok(g.(feedback := g.feedback + [v]))
    else Ok(g.(params := g.params + [v]))
  }

  lemma FormatNames()
    ensures Free("rtpmap", ':') && Free("rtcp-fb", ':') && Free("fmtp", ':')
    ensures !IsMode("rtpmap") && !IsMode("rtcp-fb") && !IsMode("fmtp")
  {
  }

  lemma FormatField(m: Media, name: string, pt: int64, v: string, i: nat, g: Format)
    requires IsFormatAttribute(name) && i < |m.formats| && FormatIndex(m.formats, pt) == i
    requires Applied(m.formats[i], name, v) == Ok(g)
    ensures MediaField(m, 'a', PayloadText(name, pt, v)) == Ok(m.(formats := m.formats[i := g]))
  {
    hide AttrOf, Split, Int, JoinAll, Show, Free, RtpmapOf, FormatIndex, PayloadText;
    FormatNames();
    hide IsMode;
    PayloadAttribute(name, pt, v);
  }

  lemma {:induction false} IndexStays(fs: seq<Format>, i: nat, g: Format)
    requires i < |fs| && g.payload == fs[i].payload
    ensures FormatIndex(fs[i := g], g.payload) == FormatIndex(fs, g.payload)
  {
    if i > 0 {
      assert fs[i := g][1..] == fs[1..][i - 1 := g];
      IndexStays(fs[1..], i - 1, g);
    } else {
      assert FormatIndex(fs, g.payload) == 0;
    }
  }

  function WithFeedback(g: Format, vs: seq<string>): Format { g.(feedback := g.feedback + MapSeq(Dash, vs)) }

  function WithParams(g: Format, vs: seq<string>): Format { g.(params := g.params + MapSeq(Dash, vs)) }

  lemma {:induction false} FoldFeedback(m: Media, i: nat, vs: seq<string>)
    requires i < |m.formats| && FormatIndex(m.formats, m.formats[i].payload) == i
    ensures FoldMedia(m, PayloadLines("rtcp-fb", m.formats[i].payload, vs))
         == Ok(m.(formats := m.formats[i := WithFeedback(m.formats[i], vs)]))
    decreases |vs|
  {
    hide MediaField, PayloadText, FormatIndex, Dash, RtpmapOf;
    var g, pt := m.formats[i], m.formats[i].payload;
    if vs == [] {
      assert g.feedback + [] == g.feedback && m.formats[i := g] == m.formats;
    } else {
      var g' := g.(feedback := g.feedback + [Dash(vs[0])]);
      var m' := m.(formats := m.formats[i := g']);
      FormatField(m, "rtcp-fb", pt, Dash(vs[0]), i, g');
      MediaStep(m, Line('a', PayloadText("rtcp-fb", pt, Dash(vs[0]))), m', PayloadLines("rtcp-fb", pt, vs[1..]));
      IndexStays(m.formats, i, g');
      FoldFeedback(m', i, vs[1..]);
      assert g.feedback + [Dash(vs[0])] + MapSeq(Dash, vs[1..]) == g.feedback + MapSeq(Dash, vs);
      assert WithFeedback(g', vs[1..]) == WithFeedback(g, vs);
      assert m'.formats[i := WithFeedback(g, vs)] == m.formats[i := WithFeedback(g, vs)];
    }
  }

  lemma {:induction false} FoldParams(m: Media, i: nat, vs: seq<string>)
    requires i < |m.formats| && FormatIndex(m.formats, m.formats[i].payload) == i
    ensures FoldMedia(m, PayloadLines("fmtp", m.formats[i].payload, vs))
         == Ok(m.(formats := m.formats[i := WithParams(m.formats[i], vs)]))
    decreases |vs|
  {
    hide MediaField, PayloadText, FormatIndex, Dash, RtpmapOf;
    var g, pt := m.formats[i], m.formats[i].payload;
    if vs == [] {
      assert g.params + [] == g.params && m.formats[i := g] == m.formats;
    } else {
      var g' := g.(params := g.params + [Dash(vs[0])]);
      var m' := m.(formats := m.formats[i := g']);
      FormatField(m, "fmtp", pt, Dash(vs[0]), i, g');
      MediaStep(m, Line('a', PayloadText("fmtp", pt, Dash(vs[0]))), m', PayloadLines("fmtp", pt, vs[1..]));
      IndexStays(m.formats, i, g');
      FoldParams(m', i, vs[1..]);
      assert g.params + [Dash(vs[0])] + MapSeq(Dash, vs[1..]) == g.params + MapSeq(Dash, vs);
      assert WithParams(g', vs[1..]) == WithParams(g, vs);
      assert m'.formats[i := WithParams(g, vs)] == m.formats[i := WithParams(g, vs)];
    }
  }

  lemma FoldRtpmap(m: Media, i: nat, f: Format)
    requires i < |m.formats| && FormatIndex(m.formats, f.payload) == i && m.formats[i] == Bare(f.payload) && GoodFormat(f)
    ensures FoldMedia(m, RtpmapLine(f))
         == Ok(m.(formats := m.formats[i := Bare(f.payload).(name := f.name, channels := f.channels, clockRate := f.clockRate)]))
  {
    hide MediaField, PayloadText, FormatIndex, RtpmapOf, JoinAll;
    var g := Bare(f.payload).(name := f.name, channels := f.channels, clockRate := f.clockRate);
    if f.name == "" {
      assert g == Bare(f.payload) && m.formats[i := g] == m.formats;
    } else {
      RtpmapRound(f, Bare(f.payload));
      FormatField(m, "rtpmap", f.payload, JoinAll(RtpmapPieces(f), '/'), i, g);
      MediaOne(m, 'a', PayloadText("rtpmap", f.payload, JoinAll(RtpmapPieces(f), '/')), m.(formats := m.formats[i := g]));
    }
  }

  /** The lines of one format complete the bare format with its payload type. */
  lemma FoldFormat(m: Media, i: nat, f: Format)
    requires i < |m.formats| && FormatIndex(m.formats, f.payload) == i && m.formats[i] == Bare(f.payload) && GoodFormat(f)
    ensures FoldMedia(m, FormatLines(f)) == Ok(m.(formats := m.formats[i := NormFormat(f)]))
  {
    hide MediaField, FoldMedia, PayloadLines, RtpmapLine, FormatIndex, MapSeq, GoodFormat;
    var g := Bare(f.payload).(name := f.name, channels := f.channels, clockRate := f.clockRate);
    var m1 := m.(formats := m.formats[i := g]);
    FoldRtpmap(m, i, f);
    IndexStays(m.formats, i, g);
    var g2 := WithFeedback(g, f.feedback);
    var m2 := m1.(formats := m1.formats[i := g2]);
    FoldFeedback(m1, i, f.feedback);
    FoldMediaMore(m, RtpmapLine(f), m1, PayloadLines("rtcp-fb", f.payload, f.feedback), m2);
    IndexStays(m1.formats, i, g2);
    var g3 := WithParams(g2, f.params);
    FoldParams(m2, i, f.params);
    FoldMediaMore(m, RtpmapLine(f) + PayloadLines("rtcp-fb", f.payload, f.feedback), m2,
                  PayloadLines("fmtp", f.payload, f.params), m2.(formats := m2.formats[i := g3]));
    assert [] + MapSeq(Dash, f.feedback) == MapSeq(Dash, f.feedback) && [] + MapSeq(Dash, f.params) == MapSeq(Dash, f.params);
    assert g3 == NormFormat(f);
    assert m2.formats[i := g3] == m.formats[i := g3];
  }

  lemma {:induction false} FirstWithPayload(fs: seq<Format>, i: nat)
    requires i < |fs| && forall j :: 0 <= j < i ==> fs[j].payload != fs[i].payload
    ensures FormatIndex(fs, fs[i].payload) == i
  {
    if i > 0 {
      FirstWithPayload(fs[1..], i - 1);
    }
  }

  lemma NoneBefore(done: seq<Format>, fs: seq<Format>)
    requires fs != [] && forall i :: 0 <= i < |done| ==> done[i].payload != fs[0].payload
    ensures var all := done + Bares(fs);
            |done| < |all| && all[|done|] == Bare(fs[0].payload) && FormatIndex(all, fs[0].payload) == |done|
  {
    FirstWithPayload(done + Bares(fs), |done|);
  }

  lemma {:induction false} FoldFormats(m: Media, done: seq<Format>, fs: seq<Format>)
    requires m.formats == done + Bares(fs)
    requires forall i :: 0 <= i < |fs| ==> GoodFormat(fs[i])
    requires forall i, j :: 0 <= i < |done| && 0 <= j < |fs| ==> done[i].payload != fs[j].payload
    requires forall i, j :: 0 <= i < j < |fs| ==> fs[i].payload != fs[j].payload
    ensures FoldMedia(m, FormatsLines(fs)) == Ok(m.(formats := done + MapSeq(NormFormat, fs)))
    decreases |fs|
  {
    hide MediaField, FoldMedia, FormatLines, FormatIndex, GoodFormat, NormFormat;
    if fs == [] {
      assert done + [] == done && m.formats == done;
      FoldNothing(m);
    } else {
      var i := |done|;
      NoneBefore(done, fs);
      FoldFormat(m, i, fs[0]);
      var n := NormFormat(fs[0]);
      NormKeepsPayload(fs[0]);
      var m' := m.(formats := m.formats[i := n]);
      assert m'.formats == (done + [n]) + Bares(fs[1..]);
      FoldFormats(m', done + [n], fs[1..]);
      FoldMediaMore(m, FormatLines(fs[0]), m', FormatsLines(fs[1..]), m'.(formats := done + [n] + MapSeq(NormFormat, fs[1..])));
      assert done + [n] + MapSeq(NormFormat, fs[1..]) == done + MapSeq(NormFormat, fs);
    }
  }

  lemma FoldNothing(m: Media)
    ensures FoldMedia(m, []) == Ok(m)
  {
  }

  lemma NormKeepsPayload(f: Format)
    ensures NormFormat(f).payload == f.payload
  {
  }

  // ---------------------------------------------------------------- one media section

  /** A section as its first line leaves it. */
  function Opened(m: Media): Media
  {
    NO_MEDIA.(typ := Dash(m.typ), proto := Dash(m.proto), portNum := m.portNum, port := m.port, formats := Bares(m.formats))
  }

  lemma MediaLineField(m: Media)
    requires GoodMedia(m)
    ensures MediaField(NO_MEDIA, 'm', MediaText(m))
         == Ok(Opened(m))
  {
    hide ProtoOf, MediaText, GoodMedia, Bares, Dash;
    MediaLineRound(m);
  }

  /** The lines after the first, folded into the section the first line opened. */
  function MediaTail(m: Media, order: seq<string>): seq<Line>
    requires forall k :: k in order ==> k in m.bandwidth
  {
    Optional('a', m.mode) + Optional('i', m.information) + ConnectionLines(m.connection) + BandwidthLines(m.bandwidth, order)
    + KeyLines(m.key) + FormatsLines(m.formats) + AttrLines(m.attributes) + Optional('y', m.ssrc) + Optional('f', m.description)
  }

  lemma FoldTail(m: Media, order: seq<string>)
    requires GoodMedia(m) && Walks(order, m.bandwidth) && (forall k :: k in order ==> k in m.bandwidth)
    ensures FoldMedia(Opened(m), MediaTail(m, order)) == Ok(NormMedia(m))
  {
    hide MediaField, FoldMedia, Dash, Bares, Optional, ConnectionLines, BandwidthLines, KeyLines, FormatsLines, AttrLines, Listed, Walks,
      GoodConnection, GoodBandwidth, GoodKey, GoodAttr, GoodFormat, IsMode, IsFormatAttribute, NoBreak, Lacks, NormConnection, NormKey, NormAttr, NormFormat;
    var m0 := Opened(m);
    var m1 := m0.(mode := m.mode);
    MediaMode(m0, m.mode);
    var ls := Optional('a', m.mode);
    var m2 := m1.(information := m.information);
    OptionalText(m1, m.information, m.ssrc, m.description);
    FoldMediaMore(m0, ls, m1, Optional('i', m.information), m2);
    ls := ls + Optional('i', m.information);
    var m3 := m2.(connection := m2.connection + MapSeq(NormConnection, m.connection));
    MediaConnections(m2, m.connection);
    FoldMediaMore(m0, ls, m2, ConnectionLines(m.connection), m3);
    ls := ls + ConnectionLines(m.connection);
    var m4 := m3.(bandwidth := m3.bandwidth + Listed(m.bandwidth, order));
    MediaBandwidth(m3, m.bandwidth, order);
    ListedAll(m.bandwidth, order);
    FoldMediaMore(m0, ls, m3, BandwidthLines(m.bandwidth, order), m4);
    ls := ls + BandwidthLines(m.bandwidth, order);
    var m5 := m4.(key := m4.key + MapSeq(NormKey, m.key));
    MediaKeys(m4, m.key);
    FoldMediaMore(m0, ls, m4, KeyLines(m.key), m5);
    ls := ls + KeyLines(m.key);
    var m6 := m5.(formats := [] + MapSeq(NormFormat, m.formats));
    assert m5.formats == [] + Bares(m.formats);
    FoldFormats(m5, [], m.formats);
    FoldMediaMore(m0, ls, m5, FormatsLines(m.formats), m6);
    ls := ls + FormatsLines(m.formats);
    var m7 := m6.(attributes := m6.attributes + MapSeq(NormAttr, m.attributes));
    MediaAttrs(m6, m.attributes);
    FoldMediaMore(m0, ls, m6, AttrLines(m.attributes), m7);
    ls := ls + AttrLines(m.attributes);
    var m8 := m7.(ssrc := m.ssrc);
    OptionalText(m7, m.information, m.ssrc, m.description);
    FoldMediaMore(m0, ls, m7, Optional('y', m.ssrc), m8);
    ls := ls + Optional('y', m.ssrc);
    OptionalText(m8, m.information, m.ssrc, m.description);
    FoldMediaMore(m0, ls, m8, Optional('f', m.description), m8.(description := m.description));
    assert m8.(description := m.description) == NormMedia(m);
  }

  // ---------------------------------------------------------------- media sections in a session

  predicate NoMediaLine(ls: seq<Line>) { forall i :: 0 <= i < |ls| ==> ls[i].kind != 'm' }

  /** Lines that open no new section change the last section only. */
  lemma {:induction false} FoldInLast(s: Session, ls: seq<Line>, m: Media)
    requires s.media != [] && NoMediaLine(ls) && FoldMedia(s.media[|s.media| - 1], ls) == Ok(m)
    ensures Fold(s, ls) == Ok(s.(media := s.media[|s.media| - 1 := m]))
    decreases |ls|
  {
    hide MediaField;
    var last := |s.media| - 1;
    if ls == [] {
      assert s.media[last := m] == s.media;
    } else {
      var m' := MediaField(s.media[last], ls[0].kind, ls[0].value).value;
      var s' := s.(media := s.media[last := m']);
      assert Field(s, ls[0].kind, ls[0].value) == Ok(s');
      hide Field;
      FoldInLast(s', ls[1..], m);
      assert s'.media[last := m] == s.media[last := m];
    }
  }

  lemma {:induction false} ListsOpenNothing(cs: seq<Connection>, ks: seq<Key>, xs: seq<Attr>)
    ensures NoMediaLine(ConnectionLines(cs)) && NoMediaLine(KeyLines(ks)) && NoMediaLine(AttrLines(xs))
    decreases |cs| + |ks| + |xs|
  {
    if cs != [] {
      ListsOpenNothing(cs[1..], ks, xs);
    }
    if ks != [] {
      ListsOpenNothing(cs, ks[1..], xs);
    }
    if xs != [] {
      ListsOpenNothing(cs, ks, xs[1..]);
    }
  }

  lemma {:induction false} BandwidthOpensNothing(b: Bandwidth, order: seq<string>)
    requires forall k :: k in order ==> k in b
    ensures NoMediaLine(BandwidthLines(b, order))
  {
    if order != [] {
      BandwidthOpensNothing(b, order[1..]);
    }
  }

  lemma {:induction false} PayloadsOpenNothing(name: string, pt: int64, vs: seq<string>)
    ensures NoMediaLine(PayloadLines(name, pt, vs))
  {
    if vs != [] {
      PayloadsOpenNothing(name, pt, vs[1..]);
    }
  }

  lemma {:induction false} FormatsOpenNothing(fs: seq<Format>)
    ensures NoMediaLine(FormatsLines(fs))
  {
    if fs != [] {
      PayloadsOpenNothing("rtcp-fb", fs[0].payload, fs[0].feedback);
      PayloadsOpenNothing("fmtp", fs[0].payload, fs[0].params);
      FormatsOpenNothing(fs[1..]);
    }
  }

  lemma TailOpensNothing(m: Media, order: seq<string>)
    requires forall k :: k in order ==> k in m.bandwidth
    ensures NoMediaLine(MediaTail(m, order))
  {
    ListsOpenNothing(m.connection, m.key, m.attributes);
    BandwidthOpensNothing(m.bandwidth, order);
    FormatsOpenNothing(m.formats);
    hide ConnectionLines, KeyLines, AttrLines, BandwidthLines, FormatsLines;
  }

  lemma MediaLinesAre(m: Media, order: seq<string>)
    requires forall k :: k in order ==> k in m.bandwidth
    ensures MediaLines(m, order) == [Line('m', MediaText(m))] + MediaTail(m, order)
  {
    hide ConnectionLines, KeyLines, AttrLines, BandwidthLines, FormatsLines, Optional, MediaText;
  }

  lemma OpenMedia(s: Session, m: Media)
    requires GoodMedia(m)
    ensures Field(s, 'm', MediaText(m)) == Ok(s.(media := s.media + [Opened(m)]))
  {
    hide MediaField, GoodMedia, MediaText, Opened;
    MediaLineField(m);
  }

  lemma FoldOneMedia(s: Session, m: Media, order: seq<string>)
    requires GoodMedia(m) && Walks(order, m.bandwidth) && (forall k :: k in order ==> k in m.bandwidth)
    ensures Fold(s, MediaLines(m, order)) == Ok(s.(media := s.media + [NormMedia(m)]))
  {
    hide Field, FoldMedia, Fold, MediaTail, MediaText, GoodMedia, Walks, Opened, NormMedia, MediaLines;
    var s' := s.(media := s.media + [Opened(m)]);
    MediaLinesAre(m, order);
    OpenMedia(s, m);
    FoldStep(s, Line('m', MediaText(m)), s', MediaTail(m, order));
    FoldTail(m, order);
    TailOpensNothing(m, order);
    FoldInLast(s', MediaTail(m, order), NormMedia(m));
    assert s'.media[|s'.media| - 1 := NormMedia(m)] == s.media + [NormMedia(m)];
  }

  lemma MediaAppended(done: seq<Media>, ms: seq<Media>)
    requires ms != []
    ensures done + [NormMedia(ms[0])] + MapSeq(NormMedia, ms[1..]) == done + MapSeq(NormMedia, ms)
  {
    hide NormMedia;
  }

  lemma {:induction false} FoldAllMedia(s: Session, ms: seq<Media>, orders: seq<seq<string>>)
    requires MediaWalks(orders, ms) && forall i :: 0 <= i < |ms| ==> GoodMedia(ms[i])
    ensures Fold(s, AllMediaLines(ms, orders)) == Ok(s.(media := s.media + MapSeq(NormMedia, ms)))
    decreases |ms|, 1
  {
    if ms == [] {
      assert s.media + [] == s.media;
      FoldEmpty(s);
    } else {
      hide *;
      FoldSections(s, ms, orders);
    }
  }

  lemma {:induction false} FoldSections(s: Session, ms: seq<Media>, orders: seq<seq<string>>)
    requires ms != [] && MediaWalks(orders, ms) && forall i :: 0 <= i < |ms| ==> GoodMedia(ms[i])
    ensures Fold(s, AllMediaLines(ms, orders)) == Ok(s.(media := s.media + MapSeq(NormMedia, ms)))
    decreases |ms|, 0
  {
    hide Fold, GoodMedia, Walks, NormMedia, MediaLines, MapSeq;
    var s' := s.(media := s.media + [NormMedia(ms[0])]);
    WalksOnly(orders[0], ms[0].bandwidth);
    FoldOneMedia(s, ms[0], orders[0]);
    FoldAllMedia(s', ms[1..], orders[1..]);
    FoldMoreFrom(s, MediaLines(ms[0], orders[0]), s', AllMediaLines(ms[1..], orders[1..]), s'.(media := s'.media + MapSeq(NormMedia, ms[1..])));
    MediaAppended(s.media, ms);
  }

  lemma FoldEmpty(s: Session)
    ensures Fold(s, []) == Ok(s)
  {
  }

  lemma FoldMoreFrom(s: Session, done: seq<Line>, mid: Session, more: seq<Line>, next: Session)
    requires Fold(s, done) == Ok(mid) && Fold(mid, more) == Ok(next)
    ensures Fold(s, done + more) == Ok(next)
  {
    hide Fold;
    FoldConcat(s, done, more);
  }

  /** Line by line, the encoded session is the normalised session. */
  lemma FoldSession(s: Session, order: seq<string>, orders: seq<seq<string>>)
    requires GoodSession(s) && Walks(order, s.bandwidth) && MediaWalks(orders, s.media)
    ensures Fold(NO_SESSION, SessionLines(s, order, orders)) == Ok(Norm(s))
  {
    hide Field, Fold, HeaderLines, AllMediaLines, GoodMedia, Walks, GoodConnection, GoodKey, GoodAttr, GoodZone, GoodRepeat, NormMedia;
    FoldHeader(s, order);
    var header := Norm(s).(media := []);
    FoldAllMedia(header, s.media, orders);
    FoldMoreFrom(NO_SESSION, HeaderLines(s, order), header, AllMediaLines(s.media, orders), header.(media := header.media + MapSeq(NormMedia, s.media)));
    assert header.media + MapSeq(NormMedia, s.media) == MapSeq(NormMedia, s.media);
  }
}
