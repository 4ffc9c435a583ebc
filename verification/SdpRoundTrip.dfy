/**
 Decoding an encoded session gives the session back, up to the normalisation of module Sdp.
 */
module SdpRoundTrip {
  import opened Text
  import opened Sdp
  import opened SdpParse
  import opened SdpFields
  import opened SdpLines

  lemma {:induction false} FoldConcat(s: Session, a: seq<Line>, b: seq<Line>)
    ensures Fold(s, a + b) == if Fold(s, a).Ok? then Fold(Fold(s, a).value, b) else Fold(s, a)
    decreases |a|
  {
    hide Field;
    if a == [] {
      assert a + b == b;
    } else {
      assert (a + b)[1..] == a[1..] + b;
      match Field(s, a[0].kind, a[0].value)
      case Err(_) =>
      case Ok(s') => FoldConcat(s', a[1..], b);
    }
  }

  lemma FoldStep(s: Session, l: Line, s': Session, rest: seq<Line>)
    requires Field(s, l.kind, l.value) == Ok(s')
    ensures Fold(s, [l] + rest) == Fold(s', rest)
  {
    hide Field;
    assert ([l] + rest)[1..] == rest;
  }

  lemma FoldOne(s: Session, kind: char, value: string)
    ensures Fold(s, [Line(kind, value)]) == Field(s, kind, value)
  {
    hide Field;
    assert [Line(kind, value)][1..] == [];
  }

  // ---------------------------------------------------------------- text to lines

  predicate CleanLine(l: Line) { l.kind != '\r' && l.kind != '\n' && NoBreak(l.value) }

  predicate CleanLines(ls: seq<Line>) { forall i :: 0 <= i < |ls| ==> CleanLine(ls[i]) }

  lemma LineIsClean(l: Line)
    requires CleanLine(l)
    ensures Shaped(LineText(l)) && LineOf(LineText(l)) == l && Ends(LineText(l)) && Free(LineText(l), '\n')
  {
  }

  /** Rendered lines, each ended by one return and a line feed. */
  function Rendered(ls: seq<Line>): seq<Written>
  {
    if ls == [] then [] else [Written(LineText(ls[0]), 1)] + Rendered(ls[1..])
  }

  lemma {:induction false} RenderedLines(ls: seq<Line>)
    requires CleanLines(ls)
    ensures TextOf(Rendered(ls), "") == Render(ls) && Proper(Rendered(ls))
    ensures forall i :: 0 <= i < |LineTexts(Rendered(ls), "")| ==> Shaped(LineTexts(Rendered(ls), "")[i])
    ensures LinesOf(LineTexts(Rendered(ls), "")) == ls
  {
    if ls != [] {
      assert CleanLine(ls[0]);
      LineIsClean(ls[0]);
      hide CleanLine, LineText, Shaped, LineOf, Ends;
      RenderedLines(ls[1..]);
      assert Returns(1) == "\r";
      assert LineText(ls[0]) + Returns(1) + "\n" + Render(ls[1..]) == LineText(ls[0]) + "\r\n" + Render(ls[1..]);
      var t := LineTexts(Rendered(ls), "");
      assert t[0] == LineText(ls[0]) && t[1..] == LineTexts(Rendered(ls[1..]), "");
    }
  }

  /** Decoding a rendered list of clean lines is folding them. */
  lemma DecodeRendered(ls: seq<Line>, s: Session, line: nat)
    requires CleanLines(ls)
    requires Fold(s, ls).Ok? && Fold(s, ls).value.origin.Some?
    ensures DecodeFrom(Render(ls), s, line) == Done(Fold(s, ls).value)
  {
    hide Fold, DecodeFrom, CleanLines, Proper;
    RenderedLines(ls);
    var ts := LineTexts(Rendered(ls), "");
    assert ts[..|ts|] == ts;
    DecodedFrom(Rendered(ls), "", s, line, |ts|);
  }

  // ---------------------------------------------------------------- the session's own lines

  lemma {:induction false} FoldEmails(s: Session, vs: seq<string>)
    requires s.media == []
    ensures Fold(s, Strings('e', vs)) == Ok(s.(email := s.email + MapSeq(Dash, vs)))
    decreases |vs|
  {
    if vs == [] {
      assert s.email + [] == s.email;
    } else {
      var s' := s.(email := s.email + [Dash(vs[0])]);
      FoldStep(s, Line('e', Dash(vs[0])), s', Strings('e', vs[1..]));
      hide Fold, Dash;
      FoldEmails(s', vs[1..]);
      assert s.email + [Dash(vs[0])] + MapSeq(Dash, vs[1..]) == s.email + MapSeq(Dash, vs);
    }
  }

  lemma {:induction false} FoldPhones(s: Session, vs: seq<string>)
    requires s.media == []
    ensures Fold(s, Strings('p', vs)) == Ok(s.(phone := s.phone + MapSeq(Dash, vs)))
    decreases |vs|
  {
    if vs == [] {
      assert s.phone + [] == s.phone;
    } else {
      var s' := s.(phone := s.phone + [Dash(vs[0])]);
      FoldStep(s, Line('p', Dash(vs[0])), s', Strings('p', vs[1..]));
      hide Fold, Dash;
      FoldPhones(s', vs[1..]);
      assert s.phone + [Dash(vs[0])] + MapSeq(Dash, vs[1..]) == s.phone + MapSeq(Dash, vs);
    }
  }

  /** The part of a map that an order lists. */
  ghost function Listed(b: Bandwidth, order: seq<string>): Bandwidth
    requires forall k :: k in order ==> k in b
  {
    map k | k in b && k in order :: b[k]
  }

  lemma ListedStep(b: Bandwidth, into: Bandwidth, order: seq<string>)
    requires order != [] && forall k :: k in order ==> k in b
    ensures into[order[0] := b[order[0]]] + Listed(b, order[1..]) == into + Listed(b, order)
  {
    assert forall k :: k in order <==> k == order[0] || k in order[1..];
  }

  lemma ListedAll(b: Bandwidth, order: seq<string>)
    requires Walks(order, b)
    ensures map[] + Listed(b, order) == b
  {
  }

  lemma {:induction false} FoldBandwidth(s: Session, b: Bandwidth, order: seq<string>)
    requires s.media == [] && GoodBandwidth(b) && forall k :: k in order ==> k in b
    ensures Fold(s, BandwidthLines(b, order)) == Ok(s.(bandwidth := s.bandwidth + Listed(b, order)))
    decreases |order|
  {
    if order == [] {
      assert s.bandwidth + Listed(b, order) == s.bandwidth;
    } else {
      var k := order[0];
      assert k in order;
      BandwidthRound(s.bandwidth, k, b[k]);
      hide BandwidthOf;
      var s' := s.(bandwidth := s.bandwidth[k := b[k]]);
      var l := Line('b', JoinAll([Dash(k), Show(b[k])], ':'));
      FoldStep(s, l, s', BandwidthLines(b, order[1..]));
      ListedStep(b, s.bandwidth, order);
      hide Fold, JoinAll, Listed;
      FoldBandwidth(s', b, order[1..]);
    }
  }

  lemma KeyField(s: Session, k: Key)
    requires s.media == [] && GoodKey(k)
    ensures Field(s, 'k', PairText(k.kind, k.value)) == Ok(s.(key := s.key + [NormKey(k)]))
  {
    KeyRound(k);
    hide KeyOf, PairText, NormKey, GoodKey;
  }

  lemma {:induction false} FoldKeys(s: Session, ks: seq<Key>)
    requires s.media == [] && forall i :: 0 <= i < |ks| ==> GoodKey(ks[i])
    ensures Fold(s, KeyLines(ks)) == Ok(s.(key := s.key + MapSeq(NormKey, ks)))
    decreases |ks|
  {
    hide Field, PairText, NormKey, GoodKey;
    if ks == [] {
      assert s.key + [] == s.key;
    } else {
      var l, s' := Line('k', PairText(ks[0].kind, ks[0].value)), s.(key := s.key + [NormKey(ks[0])]);
      assert KeyLines(ks) == [l] + KeyLines(ks[1..]);
      KeyField(s, ks[0]);
      FoldStep(s, l, s', KeyLines(ks[1..]));
      FoldKeys(s', ks[1..]);
      hide Fold;
      assert s.key + [NormKey(ks[0])] + MapSeq(NormKey, ks[1..]) == s.key + MapSeq(NormKey, ks);
    }
  }

  /** A mode name is no attribute name, not even after the dash is put in. */
  lemma AttrIsNoMode(x: Attr)
    requires GoodAttr(x)
    ensures AttrOf(PairText(x.name, x.value)) == NormAttr(x) && !IsMode(NormAttr(x).name)
  {
    AttrRound(x);
  }

  lemma AttrField(s: Session, x: Attr)
    requires s.media == [] && GoodAttr(x)
    ensures Field(s, 'a', PairText(x.name, x.value)) == Ok(s.(attributes := s.attributes + [NormAttr(x)]))
  {
    AttrIsNoMode(x);
    hide AttrOf, PairText, NormAttr, GoodAttr, IsMode;
  }

  lemma {:induction false} FoldAttrs(s: Session, xs: seq<Attr>)
    requires s.media == [] && forall i :: 0 <= i < |xs| ==> GoodAttr(xs[i])
    ensures Fold(s, AttrLines(xs)) == Ok(s.(attributes := s.attributes + MapSeq(NormAttr, xs)))
    decreases |xs|
  {
    hide Field, PairText, NormAttr, GoodAttr;
    if xs == [] {
      assert s.attributes + [] == s.attributes;
    } else {
      var l, s' := Line('a', PairText(xs[0].name, xs[0].value)), s.(attributes := s.attributes + [NormAttr(xs[0])]);
      assert AttrLines(xs) == [l] + AttrLines(xs[1..]);
      AttrField(s, xs[0]);
      FoldStep(s, l, s', AttrLines(xs[1..]));
      FoldAttrs(s', xs[1..]);
      hide Fold;
      assert s.attributes + [NormAttr(xs[0])] + MapSeq(NormAttr, xs[1..]) == s.attributes + MapSeq(NormAttr, xs);
    }
  }

  lemma RepeatField(s: Session, r: Repeat)
    requires s.media == [] && GoodRepeat(r)
    ensures Field(s, 'r', RepeatText(r)) == Ok(s.(repeat := s.repeat + [r]))
  {
    RepeatRound(r);
    hide RepeatOf, RepeatText, GoodRepeat;
  }

  lemma {:induction false} FoldRepeats(s: Session, rs: seq<Repeat>)
    requires s.media == [] && forall i :: 0 <= i < |rs| ==> GoodRepeat(rs[i])
    ensures Fold(s, RepeatLines(rs)) == Ok(s.(repeat := s.repeat + rs))
    decreases |rs|
  {
    hide Field, RepeatText, GoodRepeat;
    if rs == [] {
      assert s.repeat + [] == s.repeat;
    } else {
      var l, s' := Line('r', RepeatText(rs[0])), s.(repeat := s.repeat + [rs[0]]);
      assert RepeatLines(rs) == [l] + RepeatLines(rs[1..]);
      RepeatField(s, rs[0]);
      FoldStep(s, l, s', RepeatLines(rs[1..]));
      FoldRepeats(s', rs[1..]);
      hide Fold;
      assert s.repeat + [rs[0]] + rs[1..] == s.repeat + rs;
    }
  }

  /** A mode is written as an attribute with no value and read as the mode. */
  lemma ModeRound(mode: string)
    requires IsMode(mode)
    ensures AttrOf(mode) == Attr(mode, "")
  {
    hide AttrOf;
    AttrRound(Attr(mode, ""));
  }

  // ---------------------------------------------------------------- the header

  lemma VersionField(s: Session, n: int64)
    requires s.media == []
    ensures Field(s, 'v', Show(n)) == Ok(s.(version := n))
  {
    hide Int, Show;
    IntRound(n);
  }

  lemma OriginField(s: Session, o: Origin)
    requires s.media == [] && s.origin.None? && GoodOrigin(o)
    ensures Field(s, 'o', OriginText(o)) == Ok(s.(origin := Some(NormOrigin(o))))
  {
    hide OriginOf, OriginText, GoodOrigin, NormOrigin;
    OriginRound(o);
  }

  lemma TimingField(s: Session, t: Option<Timing>)
    requires s.media == [] && (t.Some? ==> GoodTime(t.value.start) && GoodTime(t.value.stop))
    ensures Field(s, 't', TimingText(t)) == Ok(s.(timing := Some(if t.Some? then t.value else Timing(ZERO_TIME, ZERO_TIME))))
  {
    hide TimingOf, TimingText, GoodTime;
    TimingRound(t);
  }

  lemma FoldOptionalText(s: Session, information: string, uri: string)
    requires s.media == []
    ensures s.information == "" ==> Fold(s, Optional('i', information)) == Ok(s.(information := information))
    ensures s.uri == "" ==> Fold(s, Optional('u', uri)) == Ok(s.(uri := uri))
  {
    FoldOne(s, 'i', information);
    FoldOne(s, 'u', uri);
  }

  lemma ModeField(s: Session, mode: string)
    requires s.media == [] && IsMode(mode)
    ensures Field(s, 'a', mode) == Ok(s.(mode := mode))
  {
    hide AttrOf, IsMode;
    ModeRound(mode);
  }

  lemma FoldMode(s: Session, mode: string)
    requires s.media == [] && s.mode == "" && (mode == "" || IsMode(mode))
    ensures Fold(s, Optional('a', mode)) == Ok(s.(mode := mode))
  {
    hide Field, IsMode;
    if mode != "" {
      ModeField(s, mode);
      FoldOne(s, 'a', mode);
    }
  }

  lemma ConnectionField(s: Session, c: Connection)
    requires s.media == [] && s.connection.None? && GoodConnection(c)
    ensures Field(s, 'c', ConnectionText(c)) == Ok(s.(connection := Some(NormConnection(c))))
  {
    hide ConnectionOf, ConnectionText;
    ConnectionReads(c);
  }

  lemma FoldConnection(s: Session, c: Option<Connection>)
    requires s.media == [] && s.connection.None? && (c.Some? ==> GoodConnection(c.value))
    ensures Fold(s, ConnectionLine(c)) == Ok(s.(connection := if c.Some? then Some(NormConnection(c.value)) else None))
  {
    hide Field, ConnectionText, GoodConnection;
    if c.Some? {
      ConnectionField(s, c.value);
      FoldOne(s, 'c', ConnectionText(c.value));
    }
  }

  lemma ZonesField(s: Session, zs: seq<TimeZone>)
    requires s.media == [] && 0 < |zs| <= 20 && forall i :: 0 <= i < |zs| ==> GoodZone(zs[i])
    ensures Field(s, 'z', JoinAll(ZonePieces(zs), ' ')) == Ok(s.(timeZone := zs))
  {
    hide ZonesOf, JoinAll, ZonePieces, GoodZone;
    ZonesRound(zs);
  }

  lemma FoldZones(s: Session, zs: seq<TimeZone>)
    requires s.media == [] && s.timeZone == [] && |zs| <= 20 && forall i :: 0 <= i < |zs| ==> GoodZone(zs[i])
    ensures Fold(s, ZoneLine(zs)) == Ok(s.(timeZone := zs))
  {
    hide Field, JoinAll, ZonePieces, GoodZone;
    if zs != [] {
      ZonesField(s, zs);
      FoldOne(s, 'z', JoinAll(ZonePieces(zs), ' '));
    }
  }

  /** One more group of lines after those already folded. */
  lemma FoldMore(s: Session, done: seq<Line>, mid: Session, more: seq<Line>, next: Session)
    requires Fold(s, done) == Ok(mid) && Fold(mid, more) == Ok(next)
    ensures Fold(s, done + more) == Ok(next)
  {
    hide Fold;
    FoldConcat(s, done, more);
  }

  function TimingOrZero(t: Option<Timing>): Timing { if t.Some? then t.value else Timing(ZERO_TIME, ZERO_TIME) }

  /** From the version to the connection. */
  lemma FoldIdentity(t: Session) returns (ls: seq<Line>, s: Session)
    requires GoodSession(t)
    ensures ls == [Line('v', Show(t.version))] + OriginLine(t.origin) + [Line('s', Dash(t.name))] + Optional('i', t.information)
                  + Optional('u', t.uri) + Strings('e', t.email) + Strings('p', t.phone) + ConnectionLine(t.connection)
    ensures Fold(NO_SESSION, ls) == Ok(s)
    ensures s == Norm(t).(bandwidth := map[], timeZone := [], key := [], attributes := [], timing := None, repeat := [], media := [], mode := "")
  {
    hide Field, Fold, Show, Dash, GoodConnection, Strings, Optional, ConnectionLine, NormConnection, NormOrigin, GoodOrigin, OriginText, GoodRepeat, GoodMedia, GoodKey, GoodAttr, NormMedia;
    s := NO_SESSION;
    ls := [Line('v', Show(t.version))];
    VersionField(s, t.version);
    FoldOne(s, 'v', Show(t.version));
    s := s.(version := t.version);
    OriginField(s, t.origin.value);
    FoldOne(s, 'o', OriginText(t.origin.value));
    FoldMore(NO_SESSION, ls, s, OriginLine(t.origin), s.(origin := Some(NormOrigin(t.origin.value))));
    ls, s := ls + OriginLine(t.origin), s.(origin := Some(NormOrigin(t.origin.value)));
    NameField(s, Dash(t.name));
    FoldOne(s, 's', Dash(t.name));
    FoldMore(NO_SESSION, ls, s, [Line('s', Dash(t.name))], s.(name := Dash(t.name)));
    ls, s := ls + [Line('s', Dash(t.name))], s.(name := Dash(t.name));
    FoldOptionalText(s, t.information, t.uri);
    FoldMore(NO_SESSION, ls, s, Optional('i', t.information), s.(information := t.information));
    ls, s := ls + Optional('i', t.information), s.(information := t.information);
    FoldOptionalText(s, t.information, t.uri);
    FoldMore(NO_SESSION, ls, s, Optional('u', t.uri), s.(uri := t.uri));
    ls, s := ls + Optional('u', t.uri), s.(uri := t.uri);
    FoldEmails(s, t.email);
    FoldMore(NO_SESSION, ls, s, Strings('e', t.email), s.(email := s.email + MapSeq(Dash, t.email)));
    ls, s := ls + Strings('e', t.email), s.(email := s.email + MapSeq(Dash, t.email));
    FoldPhones(s, t.phone);
    FoldMore(NO_SESSION, ls, s, Strings('p', t.phone), s.(phone := s.phone + MapSeq(Dash, t.phone)));
    ls, s := ls + Strings('p', t.phone), s.(phone := s.phone + MapSeq(Dash, t.phone));
    FoldConnection(s, t.connection);
    var connection := if t.connection.Some? then Some(NormConnection(t.connection.value)) else None;
    FoldMore(NO_SESSION, ls, s, ConnectionLine(t.connection), s.(connection := connection));
    ls, s := ls + ConnectionLine(t.connection), s.(connection := connection);
  }

  lemma NameField(s: Session, name: string)
    requires s.media == []
    ensures Field(s, 's', name) == Ok(s.(name := name))
  {
  }

  /** From the bandwidth to the attributes. */
  lemma FoldCapabilities(t: Session, order: seq<string>, s0: Session, ls0: seq<Line>) returns (ls: seq<Line>, s: Session)
    requires GoodSession(t) && Walks(order, t.bandwidth) && (forall k :: k in order ==> k in t.bandwidth)
    requires Fold(NO_SESSION, ls0) == Ok(s0) && s0.media == []
    requires s0.bandwidth == map[] && s0.timeZone == [] && s0.key == [] && s0.attributes == [] && s0.mode == ""
    ensures ls == ls0 + BandwidthLines(t.bandwidth, order) + ZoneLine(t.timeZone) + KeyLines(t.key) + Optional('a', t.mode) + AttrLines(t.attributes)
    ensures Fold(NO_SESSION, ls) == Ok(s)
    ensures s == s0.(bandwidth := t.bandwidth, timeZone := t.timeZone, key := MapSeq(NormKey, t.key), mode := t.mode,
                     attributes := MapSeq(NormAttr, t.attributes))
  {
    hide Field, Fold, GoodConnection, Optional, GoodOrigin, GoodRepeat, GoodMedia, GoodKey, GoodAttr, BandwidthLines, ZoneLine, KeyLines, AttrLines,
      GoodZone, NormKey, NormAttr, GoodTime, Walks, GoodBandwidth, IsMode, Listed, MapSeq, NoBreak;
    ls, s := ls0, s0;
    FoldBandwidth(s, t.bandwidth, order);
    ListedAll(t.bandwidth, order);
    FoldMore(NO_SESSION, ls, s, BandwidthLines(t.bandwidth, order), s.(bandwidth := t.bandwidth));
    ls, s := ls + BandwidthLines(t.bandwidth, order), s.(bandwidth := t.bandwidth);
    FoldZones(s, t.timeZone);
    FoldMore(NO_SESSION, ls, s, ZoneLine(t.timeZone), s.(timeZone := t.timeZone));
    ls, s := ls + ZoneLine(t.timeZone), s.(timeZone := t.timeZone);
    FoldKeys(s, t.key);
    FoldMore(NO_SESSION, ls, s, KeyLines(t.key), s.(key := s.key + MapSeq(NormKey, t.key)));
    ls, s := ls + KeyLines(t.key), s.(key := s.key + MapSeq(NormKey, t.key));
    FoldMode(s, t.mode);
    FoldMore(NO_SESSION, ls, s, Optional('a', t.mode), s.(mode := t.mode));
    ls, s := ls + Optional('a', t.mode), s.(mode := t.mode);
    FoldAttrs(s, t.attributes);
    FoldMore(NO_SESSION, ls, s, AttrLines(t.attributes), s.(attributes := s.attributes + MapSeq(NormAttr, t.attributes)));
    ls, s := ls + AttrLines(t.attributes), s.(attributes := s.attributes + MapSeq(NormAttr, t.attributes));
  }

  /** The whole header. */
  lemma FoldHeader(t: Session, order: seq<string>)
    requires GoodSession(t) && Walks(order, t.bandwidth)
    ensures (forall k :: k in order ==> k in t.bandwidth) && Fold(NO_SESSION, HeaderLines(t, order)) == Ok(Norm(t).(media := []))
  {
    hide Field, Fold, GoodConnection, Optional, GoodOrigin, GoodRepeat, GoodMedia, GoodKey, GoodAttr, BandwidthLines, ZoneLine, KeyLines, AttrLines,
      GoodZone, NormKey, NormAttr, GoodTime, Walks, GoodBandwidth, IsMode, MapSeq, NoBreak, Strings, OriginLine, ConnectionLine, RepeatLines, Show, Dash,
      TimingText, NormConnection, NormOrigin, NormMedia;
    WalksOnly(order, t.bandwidth);
    var ls, s := FoldIdentity(t);
    ls, s := FoldCapabilities(t, order, s, ls);
    TimingField(s, t.timing);
    FoldOne(s, 't', TimingText(t.timing));
    FoldMore(NO_SESSION, ls, s, [Line('t', TimingText(t.timing))], s.(timing := Some(TimingOrZero(t.timing))));
    ls, s := ls + [Line('t', TimingText(t.timing))], s.(timing := Some(TimingOrZero(t.timing)));
    FoldRepeats(s, t.repeat);
    FoldMore(NO_SESSION, ls, s, RepeatLines(t.repeat), s.(repeat := s.repeat + t.repeat));
    assert s.repeat + t.repeat == t.repeat;
    assert s.(repeat := t.repeat) == Norm(t).(media := []);
  }

  lemma WalksOnly(order: seq<string>, b: Bandwidth)
    requires Walks(order, b)
    ensures forall k :: k in order ==> k in b
  {
  }
}
