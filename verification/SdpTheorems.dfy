/**
 The round trip through text: no value of a good session can break a line, so the decoder sees exactly
 the encoder's lines.
 */
module SdpTheorems {
  import opened Text
  import opened Sdp
  import opened SdpParse
  import opened SdpFields
  import opened SdpLines
  import opened SdpRoundTrip
  import opened SdpMediaRoundTrip

  // ---------------------------------------------------------------- no line breaks inside values

  predicate AllClean(parts: seq<string>) { forall i :: 0 <= i < |parts| ==> NoBreak(parts[i]) }

  lemma {:induction false} JoinAllClean(parts: seq<string>, sep: char)
    requires parts != [] && AllClean(parts) && sep != '\r' && sep != '\n'
    ensures NoBreak(JoinAll(parts, sep))
  {
    if |parts| > 1 {
      JoinAllClean(parts[1..], sep);
    }
  }

  lemma ShowClean(n: int)
    ensures NoBreak(Show(n))
  {
    ShowFree(n, '\r');
    ShowFree(n, '\n');
  }

  lemma DashClean(s: string)
    requires NoBreak(s)
    ensures NoBreak(Dash(s)) && NoBreak(Default(s, "IN")) && NoBreak(Default(s, "IP4")) && NoBreak(Default(s, "127.0.0.1"))
  {
  }

  lemma TimeClean(t: Time)
    ensures NoBreak(TimeText(t))
  {
    ShowClean(t.sec);
  }

  lemma DurationClean(d: Duration)
    ensures NoBreak(DurationText(d))
  {
    var v := Seconds(d);
    ShowClean(v / 86400);
    ShowClean(v / 3600);
    ShowClean(v / 60);
    ShowClean(v);
  }

  lemma PairClean(name: string, value: string)
    requires NoBreak(name) && NoBreak(value)
    ensures NoBreak(PairText(name, value))
  {
    hide NoBreak, JoinAll;
    DashClean(name);
    JoinAllClean([Dash(name), value], ':');
  }

  lemma OriginClean(o: Origin)
    requires GoodOrigin(o)
    ensures NoBreak(OriginText(o))
  {
    hide NoBreak, JoinAll, Show, Dash, Default;
    ShowClean(o.sessionId);
    ShowClean(o.sessionVersion);
    DashClean(o.username);
    DashClean(o.network);
    DashClean(o.typ);
    DashClean(o.address);
    JoinAllClean([Dash(o.username), Show(o.sessionId), Show(o.sessionVersion)] + TransportPieces(o.network, o.typ, o.address), ' ');
  }

  lemma ConnectionClean(c: Connection)
    requires GoodConnection(c)
    ensures NoBreak(ConnectionText(c))
  {
    hide NoBreak, JoinAll, Show, Dash, Default;
    ShowClean(c.addressNum);
    DashClean(c.network);
    DashClean(c.typ);
    DashClean(c.address);
    JoinAllClean(AddressPieces(c), '/');
    JoinAllClean([Default(c.network, "IN"), Default(c.typ, "IP4"), JoinAll(AddressPieces(c), '/')], ' ');
  }

  lemma TimingClean(t: Option<Timing>)
    ensures NoBreak(TimingText(t))
  {
    if t.Some? {
      TimeClean(t.value.start);
      TimeClean(t.value.stop);
      JoinAllClean([TimeText(t.value.start), TimeText(t.value.stop)], ' ');
      hide NoBreak, JoinAll, TimeText;
    }
  }

  lemma {:induction false} ZonesClean(zs: seq<TimeZone>)
    ensures AllClean(ZonePieces(zs))
  {
    hide NoBreak, TimeText, DurationText;
    if zs != [] {
      TimeClean(zs[0].time);
      DurationClean(zs[0].offset);
      ZonesClean(zs[1..]);
    }
  }

  lemma {:induction false} OffsetsClean(ds: seq<Duration>)
    ensures AllClean(OffsetPieces(ds))
  {
    hide NoBreak, DurationText;
    if ds != [] {
      DurationClean(ds[0]);
      OffsetsClean(ds[1..]);
    }
  }

  lemma RepeatClean(r: Repeat)
    ensures NoBreak(RepeatText(r))
  {
    hide NoBreak, DurationText, JoinAll;
    DurationClean(r.interval);
    DurationClean(r.duration);
    OffsetsClean(r.offsets);
    JoinAllClean([DurationText(r.interval), DurationText(r.duration)] + OffsetPieces(r.offsets), ' ');
  }

  lemma {:induction false} PayloadPiecesClean(fs: seq<Format>)
    ensures AllClean(PayloadPieces(fs))
  {
    hide NoBreak, Show;
    if fs != [] {
      ShowClean(fs[0].payload);
      PayloadPiecesClean(fs[1..]);
    }
  }

  lemma FormatListClean(fs: seq<Format>)
    ensures NoBreak(FormatList(fs))
  {
    if fs != [] {
      PayloadPiecesClean(fs);
      JoinAllClean(PayloadPieces(fs), ' ');
    }
  }

  lemma MediaTextClean(m: Media)
    requires GoodMedia(m)
    ensures NoBreak(MediaText(m))
  {
    hide NoBreak, JoinAll, Show, Dash, FormatList;
    DashClean(m.typ);
    DashClean(m.proto);
    ShowClean(m.port);
    ShowClean(m.portNum);
    JoinAllClean([Show(m.port)] + (if m.portNum > 0 then [Show(m.portNum)] else []), '/');
    FormatListClean(m.formats);
    JoinAllClean([Dash(m.typ), PortText(m), Dash(m.proto), FormatList(m.formats)], ' ');
  }

  lemma PayloadTextClean(name: string, pt: int64, v: string)
    requires NoBreak(name) && NoBreak(v)
    ensures NoBreak(PayloadText(name, pt, v))
  {
    hide NoBreak, JoinAll, Show;
    ShowClean(pt);
    JoinAllClean([Show(pt), v], ' ');
    JoinAllClean([name, JoinAll([Show(pt), v], ' ')], ':');
  }

  lemma FormatNamesClean()
    ensures NoBreak("rtpmap") && NoBreak("rtcp-fb") && NoBreak("fmtp")
  {
  }

  // ---------------------------------------------------------------- clean lines

  lemma {:induction false} StringsClean(kind: char, vs: seq<string>)
    requires kind != '\r' && kind != '\n' && forall i :: 0 <= i < |vs| ==> NoBreak(vs[i])
    ensures CleanLines(Strings(kind, vs))
  {
    hide NoBreak, Dash;
    if vs != [] {
      DashClean(vs[0]);
      StringsClean(kind, vs[1..]);
    }
  }

  lemma {:induction false} ConnectionLinesClean(cs: seq<Connection>)
    requires forall i :: 0 <= i < |cs| ==> GoodConnection(cs[i])
    ensures CleanLines(ConnectionLines(cs))
  {
    hide NoBreak, GoodConnection, ConnectionText;
    if cs != [] {
      ConnectionClean(cs[0]);
      ConnectionLinesClean(cs[1..]);
    }
  }

  lemma {:induction false} BandwidthClean(b: Bandwidth, order: seq<string>)
    requires GoodBandwidth(b) && forall k :: k in order ==> k in b
    ensures CleanLines(BandwidthLines(b, order))
  {
    hide NoBreak, JoinAll, Show, Dash;
    if order != [] {
      assert order[0] in order;
      DashClean(order[0]);
      ShowClean(b[order[0]]);
      JoinAllClean([Dash(order[0]), Show(b[order[0]])], ':');
      BandwidthClean(b, order[1..]);
    }
  }

  lemma {:induction false} KeysClean(ks: seq<Key>)
    requires forall i :: 0 <= i < |ks| ==> GoodKey(ks[i])
    ensures CleanLines(KeyLines(ks))
  {
    hide NoBreak, PairText;
    if ks != [] {
      PairClean(ks[0].kind, ks[0].value);
      KeysClean(ks[1..]);
    }
  }

  lemma {:induction false} AttrsClean(xs: seq<Attr>)
    requires forall i :: 0 <= i < |xs| ==> GoodAttr(xs[i])
    ensures CleanLines(AttrLines(xs))
  {
    hide NoBreak, PairText, IsMode;
    if xs != [] {
      PairClean(xs[0].name, xs[0].value);
      AttrsClean(xs[1..]);
    }
  }

  lemma {:induction false} RepeatsClean(rs: seq<Repeat>)
    ensures CleanLines(RepeatLines(rs))
  {
    hide NoBreak, RepeatText;
    if rs != [] {
      RepeatClean(rs[0]);
      RepeatsClean(rs[1..]);
    }
  }

  lemma {:induction false} PayloadsClean(name: string, pt: int64, vs: seq<string>)
    requires NoBreak(name) && forall i :: 0 <= i < |vs| ==> NoBreak(vs[i])
    ensures CleanLines(PayloadLines(name, pt, vs))
  {
    hide NoBreak, PayloadText, Dash;
    if vs != [] {
      DashClean(vs[0]);
      PayloadTextClean(name, pt, Dash(vs[0]));
      PayloadsClean(name, pt, vs[1..]);
    }
  }

  lemma FormatClean(f: Format)
    requires GoodFormat(f)
    ensures CleanLines(FormatLines(f))
  {
    hide NoBreak, PayloadText, JoinAll, Show, PayloadLines;
    FormatNamesClean();
    PayloadsClean("rtcp-fb", f.payload, f.feedback);
    PayloadsClean("fmtp", f.payload, f.params);
    ShowClean(f.clockRate);
    ShowClean(f.channels);
    JoinAllClean(RtpmapPieces(f), '/');
    PayloadTextClean("rtpmap", f.payload, JoinAll(RtpmapPieces(f), '/'));
  }

  lemma {:induction false} FormatsClean(fs: seq<Format>)
    requires forall i :: 0 <= i < |fs| ==> GoodFormat(fs[i])
    ensures CleanLines(FormatsLines(fs))
  {
    hide GoodFormat, FormatLines, CleanLine;
    if fs != [] {
      FormatClean(fs[0]);
      FormatsClean(fs[1..]);
    }
  }

  lemma ModeClean(mode: string)
    requires mode == "" || IsMode(mode)
    ensures NoBreak(mode)
  {
  }

  lemma MediaClean(m: Media, order: seq<string>)
    requires GoodMedia(m) && forall k :: k in order ==> k in m.bandwidth
    ensures CleanLines(MediaLines(m, order))
  {
    hide NoBreak, MediaText, ConnectionLines, BandwidthLines, KeyLines, FormatsLines, AttrLines, GoodConnection, GoodKey, GoodAttr, GoodFormat,
      GoodBandwidth, IsMode, IsFormatAttribute;
    MediaTextClean(m);
    ModeClean(m.mode);
    ConnectionLinesClean(m.connection);
    BandwidthClean(m.bandwidth, order);
    KeysClean(m.key);
    FormatsClean(m.formats);
    AttrsClean(m.attributes);
  }

  lemma {:induction false} AllMediaClean(ms: seq<Media>, orders: seq<seq<string>>)
    requires MediaWalks(orders, ms) && forall i :: 0 <= i < |ms| ==> GoodMedia(ms[i])
    ensures CleanLines(AllMediaLines(ms, orders))
  {
    hide GoodMedia, MediaLines, CleanLine, Walks;
    if ms != [] {
      WalksOnly(orders[0], ms[0].bandwidth);
      MediaClean(ms[0], orders[0]);
      AllMediaClean(ms[1..], orders[1..]);
    }
  }

  lemma HeaderClean(s: Session, order: seq<string>)
    requires GoodSession(s) && forall k :: k in order ==> k in s.bandwidth
    ensures CleanLines(HeaderLines(s, order))
  {
    hide NoBreak, OriginText, ConnectionText, BandwidthLines, KeyLines, AttrLines, RepeatLines, Strings, JoinAll, ZonePieces, Show, Dash, TimingText,
      GoodConnection, GoodKey, GoodAttr, GoodBandwidth, IsMode, GoodMedia, GoodRepeat, GoodZone, GoodOrigin, GoodTime;
    ShowClean(s.version);
    OriginClean(s.origin.value);
    DashClean(s.name);
    StringsClean('e', s.email);
    StringsClean('p', s.phone);
    if s.connection.Some? {
      ConnectionClean(s.connection.value);
    }
    BandwidthClean(s.bandwidth, order);
    if s.timeZone != [] {
      ZonesClean(s.timeZone);
      JoinAllClean(ZonePieces(s.timeZone), ' ');
    }
    KeysClean(s.key);
    ModeClean(s.mode);
    AttrsClean(s.attributes);
    TimingClean(s.timing);
    RepeatsClean(s.repeat);
  }

  // ---------------------------------------------------------------- main results

  /**
   Decoding what the encoder writes gives the session back up to normalisation, in whatever order the
   bandwidth maps were walked, with any number of media sections, formats and attributes.
   */
  lemma RoundTrip(s: Session, order: seq<string>, orders: seq<seq<string>>)
    requires GoodSession(s) && Walks(order, s.bandwidth) && MediaWalks(orders, s.media)
    ensures Decode(Render(SessionLines(s, order, orders))) == Done(Norm(s))
  {
    hide Fold, HeaderLines, AllMediaLines, CleanLine, GoodMedia, Walks, DecodeFrom, Render, GoodConnection, GoodKey, GoodAttr, GoodZone, GoodRepeat;
    FoldSession(s, order, orders);
    WalksOnly(order, s.bandwidth);
    HeaderClean(s, order);
    AllMediaClean(s.media, orders);
    DecodeRendered(SessionLines(s, order, orders), NO_SESSION, 1);
  }

  /** A text whose first lines are these, and which ends after them or goes on with an empty line. */
  predicate Holds(ts: seq<string>, ls: seq<Line>)
  {
    && |ls| <= |ts| && (|ls| == |ts| || ts[|ls|] == "")
    && forall i :: 0 <= i < |ls| ==> ts[i] == LineText(ls[i])
  }

  lemma {:induction false} LinesAre(ts: seq<string>, ls: seq<Line>)
    requires |ts| == |ls| && forall i :: 0 <= i < |ls| ==> ts[i] == LineText(ls[i])
    ensures (forall i :: 0 <= i < |ts| ==> Shaped(ts[i])) && LinesOf(ts) == ls
  {
    if ls != [] {
      assert LineOf(LineText(ls[0])) == ls[0];
      LinesAre(ts[1..], ls[1..]);
    }
  }

  /**
   The same for every text with the session's lines, whether they end in a line feed or in returns and a line
   feed, whether or not the last one ends at all, and whatever follows after an empty line.
   */
  lemma RoundTripOfLines(s: Session, order: seq<string>, orders: seq<seq<string>>, ws: seq<Written>, last: string)
    requires GoodSession(s) && Walks(order, s.bandwidth) && MediaWalks(orders, s.media)
    requires Proper(ws) && Free(last, '\n') && Holds(LineTexts(ws, last), SessionLines(s, order, orders))
    ensures Decode(TextOf(ws, last)) == Done(Norm(s))
  {
    hide Fold, HeaderLines, AllMediaLines, GoodMedia, Walks, DecodeFrom, GoodConnection, GoodKey, GoodAttr, GoodZone, GoodRepeat, LineText, Proper;
    FoldSession(s, order, orders);
    var ls, ts := SessionLines(s, order, orders), LineTexts(ws, last);
    LinesAre(ts[..|ls|], ls);
    assert forall i :: 0 <= i < |ls| ==> Shaped(ts[..|ls|][i]);
    DecodedExactly(ws, last, |ls|);
  }
}
