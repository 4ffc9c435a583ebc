/**
 What the encoder writes, for every session: which lines and in which order, and the values that no
 round trip fixes because they do not come back.
 */
module SdpWriting {
  import opened Text
  import opened Sdp
  import opened SdpParse
  import opened SdpFields

  // ---------------------------------------------------------------- kinds of lines

  /** The kinds of lines, in order. */
  function Kinds(ls: seq<Line>): string { if ls == [] then "" else [ls[0].kind] + Kinds(ls[1..]) }

  function Many(c: char, n: nat): string { if n == 0 then "" else [c] + Many(c, n - 1) }

  function If(c: char, b: bool): string { if b then [c] else "" }

  lemma {:induction false} KindsConcat(a: seq<Line>, b: seq<Line>)
    ensures Kinds(a + b) == Kinds(a) + Kinds(b)
  {
    if a == [] {
      assert a + b == b;
    } else {
      assert (a + b)[1..] == a[1..] + b;
      KindsConcat(a[1..], b);
    }
  }

  lemma {:induction false} StringKinds(kind: char, vs: seq<string>)
    ensures Kinds(Strings(kind, vs)) == Many(kind, |vs|)
  {
    if vs != [] {
      StringKinds(kind, vs[1..]);
    }
  }

  lemma {:induction false} ConnectionKinds(cs: seq<Connection>)
    ensures Kinds(ConnectionLines(cs)) == Many('c', |cs|)
  {
    if cs != [] {
      ConnectionKinds(cs[1..]);
    }
  }

  lemma {:induction false} BandwidthKinds(b: Bandwidth, order: seq<string>)
    requires forall k :: k in order ==> k in b
    ensures Kinds(BandwidthLines(b, order)) == Many('b', |order|)
  {
    if order != [] {
      BandwidthKinds(b, order[1..]);
    }
  }

  lemma {:induction false} KeyKinds(ks: seq<Key>)
    ensures Kinds(KeyLines(ks)) == Many('k', |ks|)
  {
    if ks != [] {
      KeyKinds(ks[1..]);
    }
  }

  lemma {:induction false} AttrKinds(xs: seq<Attr>)
    ensures Kinds(AttrLines(xs)) == Many('a', |xs|)
  {
    if xs != [] {
      AttrKinds(xs[1..]);
    }
  }

  lemma {:induction false} RepeatKinds(rs: seq<Sdp.Repeat>)
    ensures Kinds(RepeatLines(rs)) == Many('r', |rs|)
  {
    if rs != [] {
      RepeatKinds(rs[1..]);
    }
  }

  lemma {:induction false} PayloadKinds(name: string, payload: int64, vs: seq<string>)
    ensures Kinds(PayloadLines(name, payload, vs)) == Many('a', |vs|)
  {
    if vs != [] {
      PayloadKinds(name, payload, vs[1..]);
    }
  }

  lemma {:induction false} ManyMore(c: char, m: nat, n: nat)
    ensures Many(c, m + n) == Many(c, m) + Many(c, n)
  {
    if m > 0 {
      ManyMore(c, m - 1, n);
    }
  }

  /** The attribute lines of formats. */
  function FormatAttributes(fs: seq<Format>): nat
  {
    if fs == [] then 0
    else (if fs[0].name == "" then 0 else 1) + |fs[0].feedback| + |fs[0].params| + FormatAttributes(fs[1..])
  }

  lemma FormatKinds(f: Format)
    ensures Kinds(FormatLines(f)) == Many('a', FormatAttributes([f]))
  {
    var named := if f.name == "" then 0 else 1;
    assert Many('a', 1) == "a" by { assert Many('a', 0) == ""; }
    PayloadKinds("rtcp-fb", f.payload, f.feedback);
    PayloadKinds("fmtp", f.payload, f.params);
    KindsConcat(RtpmapLine(f) + PayloadLines("rtcp-fb", f.payload, f.feedback), PayloadLines("fmtp", f.payload, f.params));
    KindsConcat(RtpmapLine(f), PayloadLines("rtcp-fb", f.payload, f.feedback));
    ManyMore('a', named, |f.feedback|);
    ManyMore('a', named + |f.feedback|, |f.params|);
    assert FormatAttributes([f][1..]) == 0;
  }

  lemma {:induction false} FormatsKinds(fs: seq<Format>)
    ensures Kinds(FormatsLines(fs)) == Many('a', FormatAttributes(fs))
  {
    hide FormatLines;
    if fs != [] {
      FormatKinds(fs[0]);
      assert FormatAttributes([fs[0]]) + FormatAttributes(fs[1..]) == FormatAttributes(fs);
      FormatsKinds(fs[1..]);
      KindsConcat(FormatLines(fs[0]), FormatsLines(fs[1..]));
      ManyMore('a', FormatAttributes([fs[0]]), FormatAttributes(fs[1..]));
    }
  }

  /** The kinds of the lines of a media section. */
  function MediaKinds(m: Media, walked: nat): string
  {
    "m" + (If('a', m.mode != "") + (If('i', m.information != "") + (Many('c', |m.connection|) + (Many('b', walked) + (Many('k', |m.key|)
    + (Many('a', FormatAttributes(m.formats)) + (Many('a', |m.attributes|) + (If('y', m.ssrc != "") + If('f', m.description != "")))))))))
  }

  lemma OptionalKinds(kind: char, v: string)
    ensures Kinds(Optional(kind, v)) == If(kind, v != "")
  {
  }

  lemma OneKind(l: Line)
    ensures Kinds([l]) == [l.kind]
  {
  }

  lemma MediaInRuns(m: Media, order: seq<string>)
    requires forall k :: k in order ==> k in m.bandwidth
    ensures Kinds(MediaLines(m, order)) == MediaKinds(m, |order|)
  {
    hide Kinds, Optional, If, ConnectionLines, BandwidthLines, KeyLines, FormatsLines, AttrLines, MediaText, FormatAttributes, Many;
    OneKind(Line('m', MediaText(m)));
    OptionalKinds('a', m.mode);
    OptionalKinds('i', m.information);
    ConnectionKinds(m.connection);
    BandwidthKinds(m.bandwidth, order);
    KeyKinds(m.key);
    FormatsKinds(m.formats);
    AttrKinds(m.attributes);
    OptionalKinds('y', m.ssrc);
    OptionalKinds('f', m.description);
    var l9 := [Line('m', MediaText(m))];
    var l8 := l9 + Optional('a', m.mode);
    var l7 := l8 + Optional('i', m.information);
    var l6 := l7 + ConnectionLines(m.connection);
    var l5 := l6 + BandwidthLines(m.bandwidth, order);
    var l4 := l5 + KeyLines(m.key);
    var l3 := l4 + FormatsLines(m.formats);
    var l2 := l3 + AttrLines(m.attributes);
    var l1 := l2 + Optional('y', m.ssrc);
    KindsConcat(l1, Optional('f', m.description));
    KindsConcat(l2, Optional('y', m.ssrc));
    KindsConcat(l3, AttrLines(m.attributes));
    KindsConcat(l4, FormatsLines(m.formats));
    KindsConcat(l5, KeyLines(m.key));
    KindsConcat(l6, BandwidthLines(m.bandwidth, order));
    KindsConcat(l7, ConnectionLines(m.connection));
    KindsConcat(l8, Optional('i', m.information));
    KindsConcat(l9, Optional('a', m.mode));
  }

  lemma {:induction false} SectionsKinds(ms: seq<Media>, orders: seq<seq<string>>)
    requires MediaWalks(orders, ms)
    ensures Kinds(AllMediaLines(ms, orders)) == AllMediaKinds(ms)
  {
    hide MediaLines, MediaKinds, Walks;
    if ms != [] {
      WalkedOnce(orders[0], ms[0].bandwidth);
      MediaInRuns(ms[0], orders[0]);
      SectionsKinds(ms[1..], orders[1..]);
      KindsConcat(MediaLines(ms[0], orders[0]), AllMediaLines(ms[1..], orders[1..]));
    }
  }

  function AllMediaKinds(ms: seq<Media>): string { if ms == [] then "" else MediaKinds(ms[0], |ms[0].bandwidth|) + AllMediaKinds(ms[1..]) }

  /** A map is walked in as many steps as it has keys. */
  lemma {:induction false} WalkedOnce(order: seq<string>, b: Bandwidth)
    requires Walks(order, b)
    ensures |order| == |b| && forall k :: k in order ==> k in b
    decreases |order|
  {
    if order == [] {
      assert forall k :: k !in b;
      assert b.Keys == {};
    } else {
      var k := order[0];
      assert k in order;
      var rest := b - {k};
      assert forall i :: 0 < i < |order| ==> order[i] != k;
      assert forall i :: 0 <= i < |order[1..]| ==> order[1..][i] == order[i + 1];
      assert Walks(order[1..], rest);
      WalkedOnce(order[1..], rest);
      assert b.Keys == rest.Keys + {k};
    }
  }

  /** The kinds of the header's lines. */
  function OpeningKinds(s: Session): string
  {
    "v" + (If('o', s.origin.Some?) + ("s" + (If('i', s.information != "") + If('u', s.uri != ""))))
  }

  function ContactKinds(s: Session): string
  {
    Many('e', |s.email|) + (Many('p', |s.phone|) + (If('c', s.connection.Some?) + Many('b', |s.bandwidth|)))
  }

  function TimingKinds(s: Session): string
  {
    If('z', s.timeZone != []) + (Many('k', |s.key|) + (If('a', s.mode != "") + (Many('a', |s.attributes|) + ("t" + Many('r', |s.repeat|)))))
  }

  function Front(s: Session, order: seq<string>): seq<Line>
    requires forall k :: k in order ==> k in s.bandwidth
  {
    [Line('v', Show(s.version))] + OriginLine(s.origin) + [Line('s', Dash(s.name))] + Optional('i', s.information) + Optional('u', s.uri)
    + Strings('e', s.email) + Strings('p', s.phone) + ConnectionLine(s.connection) + BandwidthLines(s.bandwidth, order)
  }

  lemma SingleKinds(s: Session)
    ensures Kinds(OriginLine(s.origin)) == If('o', s.origin.Some?) && Kinds(ConnectionLine(s.connection)) == If('c', s.connection.Some?)
    ensures Kinds(ZoneLine(s.timeZone)) == If('z', s.timeZone != [])
  {
  }

  lemma FrontInRuns(s: Session, order: seq<string>)
    requires Walks(order, s.bandwidth) && forall k :: k in order ==> k in s.bandwidth
    ensures Kinds(Front(s, order)) == OpeningKinds(s) + ContactKinds(s)
  {
    hide Kinds, Optional, If, Strings, BandwidthLines, OriginLine, ConnectionLine, Many, Show, Dash, Walks;
    var l1 := [Line('v', Show(s.version))];
    var l2 := l1 + OriginLine(s.origin);
    var l3 := l2 + [Line('s', Dash(s.name))];
    var l4 := l3 + Optional('i', s.information);
    var l5 := l4 + Optional('u', s.uri);
    var l6 := l5 + Strings('e', s.email);
    var l7 := l6 + Strings('p', s.phone);
    var l8 := l7 + ConnectionLine(s.connection);
    OneKind(Line('v', Show(s.version)));
    OneKind(Line('s', Dash(s.name)));
    SingleKinds(s);
    OptionalKinds('i', s.information);
    OptionalKinds('u', s.uri);
    StringKinds('e', s.email);
    StringKinds('p', s.phone);
    WalkedOnce(order, s.bandwidth);
    BandwidthKinds(s.bandwidth, order);
    KindsConcat(l8, BandwidthLines(s.bandwidth, order));
    KindsConcat(l7, ConnectionLine(s.connection));
    KindsConcat(l6, Strings('p', s.phone));
    KindsConcat(l5, Strings('e', s.email));
    KindsConcat(l4, Optional('u', s.uri));
    KindsConcat(l3, Optional('i', s.information));
    KindsConcat(l2, [Line('s', Dash(s.name))]);
    KindsConcat(l1, OriginLine(s.origin));
  }

  function Back(s: Session): seq<Line>
  {
    ZoneLine(s.timeZone) + KeyLines(s.key) + Optional('a', s.mode) + AttrLines(s.attributes) + [Line('t', TimingText(s.timing))] + RepeatLines(s.repeat)
  }

  lemma BackInRuns(s: Session)
    ensures Kinds(Back(s)) == TimingKinds(s)
  {
    SingleKinds(s);
    hide Kinds, Optional, If, KeyLines, AttrLines, RepeatLines, ZoneLine, TimingText, Many;
    KeyKinds(s.key);
    OptionalKinds('a', s.mode);
    AttrKinds(s.attributes);
    OneKind(Line('t', TimingText(s.timing)));
    RepeatKinds(s.repeat);
    var l1 := ZoneLine(s.timeZone);
    var l2 := l1 + KeyLines(s.key);
    var l3 := l2 + Optional('a', s.mode);
    var l4 := l3 + AttrLines(s.attributes);
    var l5 := l4 + [Line('t', TimingText(s.timing))];
    KindsConcat(l5, RepeatLines(s.repeat));
    KindsConcat(l4, [Line('t', TimingText(s.timing))]);
    KindsConcat(l3, AttrLines(s.attributes));
    KindsConcat(l2, Optional('a', s.mode));
    KindsConcat(l1, KeyLines(s.key));
  }

  lemma FrontThenBack(s: Session, order: seq<string>)
    requires forall k :: k in order ==> k in s.bandwidth
    ensures HeaderLines(s, order) == Front(s, order) + Back(s)
  {
    hide Optional, KeyLines, AttrLines, RepeatLines, ZoneLine, TimingText, OriginLine, ConnectionLine, BandwidthLines, Strings, Show, Dash;
  }

  lemma HeaderInRuns(s: Session, order: seq<string>)
    requires Walks(order, s.bandwidth) && forall k :: k in order ==> k in s.bandwidth
    ensures Kinds(HeaderLines(s, order)) == OpeningKinds(s) + ContactKinds(s) + TimingKinds(s)
  {
    hide HeaderLines, Front, Back, OpeningKinds, ContactKinds, TimingKinds, Walks;
    FrontInRuns(s, order);
    BackInRuns(s);
    FrontThenBack(s, order);
    KindsConcat(Front(s, order), Back(s));
  }

  /** How many lines of which kind a description has, in what order: first the header, then the media sections. */
  lemma KindsOfSession(s: Session, order: seq<string>, orders: seq<seq<string>>)
    requires Walks(order, s.bandwidth) && MediaWalks(orders, s.media)
    ensures Kinds(SessionLines(s, order, orders)) == OpeningKinds(s) + ContactKinds(s) + TimingKinds(s) + AllMediaKinds(s.media)
  {
    hide HeaderLines, AllMediaLines, OpeningKinds, ContactKinds, TimingKinds, AllMediaKinds, Walks, MediaWalks;
    WalkedOnce(order, s.bandwidth);
    HeaderInRuns(s, order);
    SectionsKinds(s.media, orders);
    KindsConcat(HeaderLines(s, order), AllMediaLines(s.media, orders));
  }

  // ---------------------------------------------------------------- the order of the standard

  /** Section 5 of RFC 4566; the lines of GB/T 28181 come last. */
  const HEADER := "vosiuepcbtrzka"
  const SECTION := "micbkayf"

  predicate InOrder(kinds: string, places: string, from: nat)
  {
    if kinds == "" then true
    else if kinds[0] == 'm' then InOrder(kinds[1..], SECTION, 1)
    else from <= IndexOf(places, kinds[0]) < |places| && InOrder(kinds[1..], places, IndexOf(places, kinds[0]))
  }

  lemma {:induction false} ManyInOrder(c: char, n: nat, rest: string, places: string, from: nat)
    requires c != 'm' && IndexOf(places, c) < |places|
    ensures InOrder(Many(c, n) + rest, places, from)
       <==> if n == 0 then InOrder(rest, places, from) else from <= IndexOf(places, c) && InOrder(rest, places, IndexOf(places, c))
  {
    if n == 0 {
      assert Many(c, n) + rest == rest;
    } else {
      assert (Many(c, n) + rest)[1..] == Many(c, n - 1) + rest;
      ManyInOrder(c, n - 1, rest, places, IndexOf(places, c));
    }
  }

  lemma OneInOrder(c: char, b: bool, rest: string, places: string, from: nat)
    requires c != 'm' && IndexOf(places, c) < |places|
    ensures InOrder(If(c, b) + rest, places, from)
       <==> if !b then InOrder(rest, places, from) else from <= IndexOf(places, c) && InOrder(rest, places, IndexOf(places, c))
  {
    assert Many(c, 0) == "" && Many(c, 1) == [c] + Many(c, 0);
    ManyInOrder(c, if b then 1 else 0, rest, places, from);
  }

  lemma PlaceIs(places: string, c: char, k: nat)
    requires k < |places| && places[k] == c && forall i :: 0 <= i < k ==> places[i] != c
    ensures IndexOf(places, c) == k
  {
  }

  lemma FrontPlaces()
    ensures IndexOf(HEADER, 'v') == 0 && IndexOf(HEADER, 'o') == 1 && IndexOf(HEADER, 's') == 2 && IndexOf(HEADER, 'i') == 3
    ensures IndexOf(HEADER, 'u') == 4 && IndexOf(HEADER, 'e') == 5 && IndexOf(HEADER, 'p') == 6 && IndexOf(HEADER, 'c') == 7
    ensures IndexOf(HEADER, 'b') == 8
  {
    hide IndexOf;
    PlaceIs(HEADER, 'v', 0);
    PlaceIs(HEADER, 'o', 1);
    PlaceIs(HEADER, 's', 2);
    PlaceIs(HEADER, 'i', 3);
    PlaceIs(HEADER, 'u', 4);
    PlaceIs(HEADER, 'e', 5);
    PlaceIs(HEADER, 'p', 6);
    PlaceIs(HEADER, 'c', 7);
    PlaceIs(HEADER, 'b', 8);
  }

  lemma BackPlaces()
    ensures IndexOf(HEADER, 't') == 9 && IndexOf(HEADER, 'r') == 10 && IndexOf(HEADER, 'z') == 11 && IndexOf(HEADER, 'k') == 12
    ensures IndexOf(HEADER, 'a') == 13
  {
    hide IndexOf;
    PlaceIs(HEADER, 't', 9);
    PlaceIs(HEADER, 'r', 10);
    PlaceIs(HEADER, 'z', 11);
    PlaceIs(HEADER, 'k', 12);
    PlaceIs(HEADER, 'a', 13);
  }

  lemma SectionPlaces()
    ensures IndexOf(SECTION, 'i') == 1 && IndexOf(SECTION, 'c') == 2 && IndexOf(SECTION, 'b') == 3 && IndexOf(SECTION, 'k') == 4
    ensures IndexOf(SECTION, 'a') == 5 && IndexOf(SECTION, 'y') == 6 && IndexOf(SECTION, 'f') == 7
  {
    hide IndexOf;
    PlaceIs(SECTION, 'i', 1);
    PlaceIs(SECTION, 'c', 2);
    PlaceIs(SECTION, 'b', 3);
    PlaceIs(SECTION, 'k', 4);
    PlaceIs(SECTION, 'a', 5);
    PlaceIs(SECTION, 'y', 6);
    PlaceIs(SECTION, 'f', 7);
  }

  /** A mode written ahead of the lines that go before attributes. */
  predicate ModeAhead(m: Media) { m.mode != "" && (m.information != "" || m.connection != [] || m.bandwidth != map[] || m.key != []) }

  lemma {:induction false} EmptyMap(b: Bandwidth)
    ensures |b| == 0 <==> b == map[]
  {
    assert |b| == 0 ==> b.Keys == {};
  }

  /** Where a section begins or nothing follows, it does not matter what came before. */
  lemma AnyPlace(rest: string, places: string, from: nat)
    requires rest == "" || rest[0] == 'm'
    ensures InOrder(rest, places, from) <==> InOrder(rest, SECTION, 0)
  {
  }

  /** The lines of a section from its attributes on are in order, as nothing of them comes earlier. */
  lemma MediaEndOrder(m: Media, n6: string, rest: string, from: nat)
    requires rest == "" || rest[0] == 'm'
    requires n6 == Many('a', FormatAttributes(m.formats))
                   + (Many('a', |m.attributes|) + (If('y', m.ssrc != "") + (If('f', m.description != "") + rest)))
    requires from <= 5
    ensures InOrder(n6, SECTION, from) <==> InOrder(rest, SECTION, 0)
  {
    SectionPlaces();
    hide IndexOf, InOrder, If, Many, FormatAttributes;
    var n9 := If('f', m.description != "") + rest;
    var n8 := If('y', m.ssrc != "") + n9;
    var n7 := Many('a', |m.attributes|) + n8;
    var p7 := if FormatAttributes(m.formats) == 0 then from else 5;
    var p8 := if m.attributes == [] then p7 else 5;
    var p9 := if m.ssrc == "" then p8 else 6;
    ManyInOrder('a', FormatAttributes(m.formats), n7, SECTION, from);
    ManyInOrder('a', |m.attributes|, n8, SECTION, p7);
    OneInOrder('y', m.ssrc != "", n9, SECTION, p8);
    OneInOrder('f', m.description != "", rest, SECTION, p9);
    AnyPlace(rest, SECTION, if m.description == "" then p9 else 7);
  }

  lemma MediaBodyOrder(m: Media, n6: string, rest: string)
    requires rest == "" || rest[0] == 'm'
    requires forall from: nat :: from <= 5 ==> (InOrder(n6, SECTION, from) <==> InOrder(rest, SECTION, 0))
    ensures InOrder(If('a', m.mode != "") + (If('i', m.information != "") + (Many('c', |m.connection|) + (Many('b', |m.bandwidth|)
                    + (Many('k', |m.key|) + n6)))), SECTION, 1)
       <==> !ModeAhead(m) && InOrder(rest, SECTION, 0)
  {
    SectionPlaces();
    EmptyMap(m.bandwidth);
    hide IndexOf, InOrder, If, Many;
    var n5 := Many('k', |m.key|) + n6;
    var n4 := Many('b', |m.bandwidth|) + n5;
    var n3 := Many('c', |m.connection|) + n4;
    var n2 := If('i', m.information != "") + n3;
    var p2 := if m.mode == "" then 1 else 5;
    var p3 := if m.information == "" then p2 else 1;
    var p4 := if m.connection == [] then p3 else 2;
    var p5 := if |m.bandwidth| == 0 then p4 else 3;
    var p6 := if m.key == [] then p5 else 4;
    OneInOrder('a', m.mode != "", n2, SECTION, 1);
    OneInOrder('i', m.information != "", n3, SECTION, p2);
    ManyInOrder('c', |m.connection|, n4, SECTION, p3);
    ManyInOrder('b', |m.bandwidth|, n5, SECTION, p4);
    ManyInOrder('k', |m.key|, n6, SECTION, p5);
    assert InOrder(n6, SECTION, p6) <==> InOrder(rest, SECTION, 0);
  }

  lemma MediaKindsThen(m: Media, rest: string)
    ensures MediaKinds(m, |m.bandwidth|) + rest
         == "m" + (If('a', m.mode != "") + (If('i', m.information != "") + (Many('c', |m.connection|) + (Many('b', |m.bandwidth|)
            + (Many('k', |m.key|) + (Many('a', FormatAttributes(m.formats)) + (Many('a', |m.attributes|) + (If('y', m.ssrc != "")
            + (If('f', m.description != "") + rest)))))))))
  {
    hide If, Many, FormatAttributes;
  }

  lemma SectionBegins(n1: string, places: string, from: nat)
    ensures InOrder("m" + n1, places, from) <==> InOrder(n1, SECTION, 1)
  {
    assert ("m" + n1)[1..] == n1;
  }

  lemma MediaOrder(m: Media, rest: string, places: string, from: nat)
    requires rest == "" || rest[0] == 'm'
    ensures InOrder(MediaKinds(m, |m.bandwidth|) + rest, places, from) <==> !ModeAhead(m) && InOrder(rest, SECTION, 0)
  {
    hide InOrder, If, Many, FormatAttributes, MediaKinds, ModeAhead;
    var n6 := Many('a', FormatAttributes(m.formats))
              + (Many('a', |m.attributes|) + (If('y', m.ssrc != "") + (If('f', m.description != "") + rest)));
    MediaKindsThen(m, rest);
    SectionBegins(If('a', m.mode != "") + (If('i', m.information != "") + (Many('c', |m.connection|) + (Many('b', |m.bandwidth|)
                  + (Many('k', |m.key|) + n6)))), places, from);
    forall from: nat | from <= 5
      ensures InOrder(n6, SECTION, from) <==> InOrder(rest, SECTION, 0)
    {
      MediaEndOrder(m, n6, rest, from);
    }
    MediaBodyOrder(m, n6, rest);
  }

  lemma {:induction false} SectionsOrder(ms: seq<Media>, places: string, from: nat)
    ensures InOrder(AllMediaKinds(ms), places, from) <==> forall i :: 0 <= i < |ms| ==> !ModeAhead(ms[i])
  {
    if ms == [] {
    } else {
      var rest := AllMediaKinds(ms[1..]);
      assert rest == "" || rest[0] == 'm';
      hide InOrder, MediaKinds, ModeAhead;
      MediaOrder(ms[0], rest, places, from);
      SectionsOrder(ms[1..], SECTION, 0);
      assert forall i :: 0 < i < |ms| ==> ms[i] == ms[1..][i - 1];
    }
  }

  lemma FrontOrder(s: Session, rest: string) returns (from: nat)
    ensures from <= 8 && (InOrder(OpeningKinds(s) + (ContactKinds(s) + rest), HEADER, 0) <==> InOrder(rest, HEADER, from))
  {
    FrontPlaces();
    hide IndexOf, InOrder, If, Many, OpeningKinds, ContactKinds;
    var n9 := Many('b', |s.bandwidth|) + rest;
    var n8 := If('c', s.connection.Some?) + n9;
    var n7 := Many('p', |s.phone|) + n8;
    var n6 := Many('e', |s.email|) + n7;
    var n5 := If('u', s.uri != "") + n6;
    var n4 := If('i', s.information != "") + n5;
    var n3 := If('s', true) + n4;
    var n2 := If('o', s.origin.Some?) + n3;
    var n1 := If('v', true) + n2;
    var p2 := if s.origin.Some? then 1 else 0;
    var p4 := if s.information == "" then 2 else 3;
    var p5 := if s.uri == "" then p4 else 4;
    var p6 := if s.email == [] then p5 else 5;
    var p7 := if s.phone == [] then p6 else 6;
    var p8 := if s.connection.Some? then 7 else p7;
    OpeningKindsThen(s, ContactKinds(s) + rest);
    ContactKindsThen(s, rest);
    OneInOrder('v', true, n2, HEADER, 0);
    OneInOrder('o', s.origin.Some?, n3, HEADER, 0);
    OneInOrder('s', true, n4, HEADER, p2);
    OneInOrder('i', s.information != "", n5, HEADER, 2);
    OneInOrder('u', s.uri != "", n6, HEADER, p4);
    ManyInOrder('e', |s.email|, n7, HEADER, p5);
    ManyInOrder('p', |s.phone|, n8, HEADER, p6);
    OneInOrder('c', s.connection.Some?, n9, HEADER, p7);
    ManyInOrder('b', |s.bandwidth|, rest, HEADER, p8);
    from := if |s.bandwidth| == 0 then p8 else 8;
  }

  lemma Always(c: char)
    ensures If(c, true) == [c]
  {
  }

  lemma OpeningKindsThen(s: Session, rest: string)
    ensures OpeningKinds(s) + rest
         == If('v', true) + (If('o', s.origin.Some?) + (If('s', true) + (If('i', s.information != "") + (If('u', s.uri != "") + rest))))
  {
    hide If, Many;
    Always('v');
    Always('s');
  }

  lemma ContactKindsThen(s: Session, rest: string)
    ensures ContactKinds(s) + rest
         == Many('e', |s.email|) + (Many('p', |s.phone|) + (If('c', s.connection.Some?) + (Many('b', |s.bandwidth|) + rest)))
  {
    hide If, Many;
  }

  lemma TimingKindsThen(s: Session, rest: string)
    ensures TimingKinds(s) + rest
         == If('z', s.timeZone != []) + (Many('k', |s.key|) + (If('a', s.mode != "") + (Many('a', |s.attributes|) + (If('t', true)
            + (Many('r', |s.repeat|) + rest)))))
  {
    hide If, Many;
    Always('t');
  }

  /** Zones, keys, a mode or attributes: lines that belong behind the timing. */
  predicate TimingLate(s: Session) { s.timeZone != [] || s.key != [] || s.mode != "" || s.attributes != [] }

  lemma BackOrder(s: Session, rest: string, from: nat)
    requires from <= 8 && (rest == "" || rest[0] == 'm')
    ensures InOrder(TimingKinds(s) + rest, HEADER, from) <==> !TimingLate(s) && InOrder(rest, SECTION, 0)
  {
    BackPlaces();
    hide IndexOf, InOrder, If, Many, TimingKinds;
    TimingKindsThen(s, rest);
    var n6 := Many('r', |s.repeat|) + rest;
    var n5 := If('t', true) + n6;
    var n4 := Many('a', |s.attributes|) + n5;
    var n3 := If('a', s.mode != "") + n4;
    var n2 := Many('k', |s.key|) + n3;
    var p2 := if s.timeZone == [] then from else 11;
    var p3 := if s.key == [] then p2 else 12;
    var p4 := if s.mode == "" then p3 else 13;
    var p5 := if s.attributes == [] then p4 else 13;
    OneInOrder('z', s.timeZone != [], n2, HEADER, from);
    ManyInOrder('k', |s.key|, n3, HEADER, p2);
    OneInOrder('a', s.mode != "", n4, HEADER, p3);
    ManyInOrder('a', |s.attributes|, n5, HEADER, p4);
    OneInOrder('t', true, n6, HEADER, p5);
    ManyInOrder('r', |s.repeat|, rest, HEADER, 9);
    AnyPlace(rest, HEADER, if s.repeat == [] then 9 else 10);
  }

  lemma SectionsBegin(ms: seq<Media>)
    ensures var kinds := AllMediaKinds(ms); kinds == "" || kinds[0] == 'm'
  {
  }

  /**
   The lines of a description are in the order of the standard if and only if its header has no zones, keys,
   mode or attributes, which are written before the timing, and no section has a mode, which is written before
   them, together with information, connections, bandwidths or keys.
   */
  lemma StandardOrderExactly(s: Session, order: seq<string>, orders: seq<seq<string>>)
    requires Walks(order, s.bandwidth) && MediaWalks(orders, s.media)
    ensures InOrder(Kinds(SessionLines(s, order, orders)), HEADER, 0)
       <==> !TimingLate(s) && forall i :: 0 <= i < |s.media| ==> !ModeAhead(s.media[i])
  {
    hide InOrder, Kinds, SessionLines, OpeningKinds, ContactKinds, TimingKinds, AllMediaKinds, Walks, MediaWalks, TimingLate, ModeAhead;
    var rest := AllMediaKinds(s.media);
    SectionsBegin(s.media);
    KindsOfSession(s, order, orders);
    var a, b, c := OpeningKinds(s), ContactKinds(s), TimingKinds(s);
    assert a + b + c + rest == a + (b + (c + rest));
    var from := FrontOrder(s, c + rest);
    BackOrder(s, rest, from);
    SectionsOrder(s.media, SECTION, 0);
  }
}
