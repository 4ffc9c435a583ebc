/**
 What the encoder writes for values that do not come back as they are, and the sessions that come back
 unchanged.
 */
module SdpFull {
  import opened Text
  import opened Sdp
  import opened SdpParse
  import opened SdpFields
  import SdpTheorems

  // ---------------------------------------------------------------- durations and counts

  /** The fraction of a duration is dropped towards zero, whatever unit it is written in. */
  lemma DurationCut(d: Duration)
    ensures DurationOf(DurationText(d)).Ok?
    ensures
      var v := DurationOf(DurationText(d)).value;
      v % SECOND == 0 && if d >= 0 then 0 <= d - v < SECOND else 0 <= v - d < SECOND
  {
    var v: int := Seconds(d) * SECOND;
    assert IsInt64(v) && Seconds(v) == Seconds(d);
    DurationRound(v);
  }

  predicate IsUnit(size: int, unit: string)
  {
    (size == 86_400 && unit == "d") || (size == 3_600 && unit == "h") || (size == 60 && unit == "m") || (size == 1 && unit == "")
  }

  lemma WholeSeconds(d: Duration, v: int)
    requires d == v * SECOND
    ensures Seconds(d) == v
  {
  }

  lemma InDays(n: int, d: Duration)
    requires n != 0 && Seconds(d) == n * 86_400
    ensures DurationText(d) == Show(n) + "d"
  {
    hide Seconds, Show;
  }

  lemma InHours(n: int, d: Duration)
    requires n % 24 != 0 && Seconds(d) == n * 3_600
    ensures DurationText(d) == Show(n) + "h"
  {
    hide Seconds, Show;
  }

  lemma InMinutes(n: int, d: Duration)
    requires n % 60 != 0 && Seconds(d) == n * 60
    ensures DurationText(d) == Show(n) + "m"
  {
    hide Seconds, Show;
    var v := n * 60;
    Remainder(v, 60, n, 0);
    Remainder(v, 3_600, n / 60, 60 * (n % 60));
    Remainder(v, 86_400, n / 1_440, 60 * (n % 1_440));
    Remainder(n, 60, 24 * (n / 1_440) + n % 1_440 / 60, n % 1_440 % 60);
  }

  lemma Remainder(x: int, k: int, q: int, r: int)
    requires 0 <= r < k && x == k * q + r
    ensures x / k == q && x % k == r
  {
    OneQuotient(k, q, r, x / k, x % k);
  }

  lemma OneQuotient(k: int, q: int, r: int, q': int, r': int)
    requires 0 <= r < k && 0 <= r' < k && k * q + r == k * q' + r'
    ensures q == q' && r == r'
  {
    if q + 1 <= q' {
      Scale(k, q + 1, q');
    } else if q' + 1 <= q {
      Scale(k, q' + 1, q);
    }
  }

  lemma Scale(k: int, a: int, b: int)
    requires k > 0 && a <= b
    ensures k * a <= k * b
  {
  }

  lemma InSeconds(n: int, d: Duration)
    requires n % 60 != 0 && Seconds(d) == n
    ensures DurationText(d) == Show(n) + ""
  {
    NoLarger(n);
    hide Seconds, Show;
    assert Show(n) + "" == Show(n);
  }

  lemma NoLarger(n: int)
    ensures n % 60 == n % 3_600 % 60 && n % 60 == n % 86_400 % 60
  {
    Remainder(n, 60, 60 * (n / 3_600) + n % 3_600 / 60, n % 3_600 % 60);
    Remainder(n, 60, 1_440 * (n / 86_400) + n % 86_400 / 60, n % 86_400 % 60);
  }

  /** The unit is the largest one that divides the seconds. */
  lemma LargestUnit(n: int, size: int, unit: string, d: Duration)
    requires n != 0 && IsUnit(size, unit) && d == n * size * SECOND
    requires size == 3_600 ==> n % 24 != 0
    requires size == 60 || size == 1 ==> n % 60 != 0
    ensures DurationText(d) == Show(n) + unit && DurationText(0) == "0"
  {
    WholeSeconds(d, n * size);
    WholeSeconds(0, 0);
    hide Seconds, Show;
    if size == 86_400 {
      InDays(n, d);
    } else if size == 3_600 {
      InHours(n, d);
    } else if size == 60 {
      InMinutes(n, d);
    } else {
      InSeconds(n, d);
    }
  }

  /** Written as zero are the start of year 1, which is the zero time, and every instant in the Unix epoch's second. */
  lemma ZeroExactly(t: Time)
    ensures TimeText(t) == "0" <==> t.sec == 0 || t == Time(-62_135_596_800, 0)
  {
    assert Show(0) == "0";
    IntRound(t.sec);
    IntRound(0);
    hide Show, Int;
  }

  lemma JoinedThree(a: string, b: string, c: string, sep: char)
    ensures JoinAll([a, b], sep) == a + [sep] + b && JoinAll([a, b, c], sep) == a + [sep] + (b + [sep] + c)
  {
    OnePart(b, sep);
    OnePart(c, sep);
    assert [a, b][1..] == [b] && [a, b, c][1..] == [b, c] && [b, c][1..] == [c];
    assert JoinAll([b, c], sep) == b + [sep] + c;
  }

  /** Numbers of ports and channels follow a slash, when they are positive. */
  lemma CountsWritten(m: Media, f: Format)
    ensures PortText(m) == Show(m.port) + if m.portNum > 0 then "/" + Show(m.portNum) else ""
    ensures RtpmapLine(f) ==
            if f.name == "" then []
            else [Line('a', PayloadText("rtpmap", f.payload, f.name + "/" + (Show(f.clockRate) + if f.channels > 0 then "/" + Show(f.channels) else "")))]
  {
    hide Show, JoinAll, PayloadText;
    var port, rate, channels := Show(m.port), Show(f.clockRate), Show(f.channels);
    assert [port] + [] == [port] && [port] + [Show(m.portNum)] == [port, Show(m.portNum)];
    OnePart(port, '/');
    JoinedThree(port, Show(m.portNum), "", '/');
    JoinedThree(f.name, rate, channels, '/');
    assert RtpmapPieces(f) == if f.channels > 0 then [f.name, rate, channels] else [f.name, rate];
    assert port + "" == port && rate + "" == rate;
    assert port + ['/'] + Show(m.portNum) == port + ("/" + Show(m.portNum));
    assert f.name + ['/'] + rate == f.name + "/" + rate;
    assert f.name + ['/'] + (rate + ['/'] + channels) == f.name + "/" + (rate + ("/" + channels));
  }

  /** An attribute about a payload type. */
  lemma PayloadWritten(name: string, payload: int64, v: string)
    ensures PayloadText(name, payload, v) == name + ":" + (Show(payload) + " " + v)
  {
    hide Show, JoinAll;
    JoinedThree(Show(payload), v, "", ' ');
    JoinedThree(name, Show(payload) + [' '] + v, "", ':');
    assert Show(payload) + [' '] + v == Show(payload) + " " + v;
    assert name + [':'] + (Show(payload) + " " + v) == name + ":" + (Show(payload) + " " + v);
  }

  lemma OnePart(a: string, sep: char)
    ensures JoinAll([a], sep) == a
  {
  }

  // ---------------------------------------------------------------- what the trip does not change

  predicate FullTransport(network: string, typ: string, address: string) { network != "" && typ != "" && address != "" }

  predicate FullConnections(cs: seq<Connection>)
  {
    forall i :: 0 <= i < |cs| ==> FullTransport(cs[i].network, cs[i].typ, cs[i].address)
  }

  predicate Named(ks: seq<Key>, xs: seq<Attr>)
  {
    (forall i :: 0 <= i < |ks| ==> ks[i].kind != "") && forall i :: 0 <= i < |xs| ==> xs[i].name != ""
  }

  predicate FullFormats(fs: seq<Format>) { forall i :: 0 <= i < |fs| ==> "" !in fs[i].feedback && "" !in fs[i].params }

  predicate FullMedia(m: Media) { m.typ != "" && m.proto != "" && FullConnections(m.connection) && Named(m.key, m.attributes) && FullFormats(m.formats) }

  /** A session with a timing and with none of the fields empty that are always written. */
  predicate Full(s: Session)
  {
    && (s.origin.Some? ==>
          s.origin.value.username != "" && FullTransport(s.origin.value.network, s.origin.value.typ, s.origin.value.address))
    && s.name != "" && "" !in s.email && "" !in s.phone && s.timing.Some?
    && (s.connection.Some? ==> FullConnections([s.connection.value]))
    && Named(s.key, s.attributes)
    && forall i :: 0 <= i < |s.media| ==> FullMedia(s.media[i])
  }

  lemma {:induction false} MapSeqAt<A>(f: A -> A, xs: seq<A>)
    ensures forall i :: 0 <= i < |xs| ==> MapSeq(f, xs)[i] == f(xs[i])
    ensures MapSeq(f, xs) == xs <==> forall i :: 0 <= i < |xs| ==> f(xs[i]) == xs[i]
  {
    if xs != [] {
      MapSeqAt(f, xs[1..]);
      assert forall i :: 0 < i < |xs| ==> xs[i] == xs[1..][i - 1] && MapSeq(f, xs)[i] == MapSeq(f, xs[1..])[i - 1];
      assert MapSeq(f, xs)[0] == f(xs[0]);
    }
  }

  lemma TextsUnchanged(xs: seq<string>)
    ensures MapSeq(Dash, xs) == xs <==> "" !in xs
  {
    MapSeqAt(Dash, xs);
    assert forall i :: 0 <= i < |xs| ==> (Dash(xs[i]) == xs[i] <==> xs[i] != "");
  }

  lemma ConnectionsUnchanged(cs: seq<Connection>)
    ensures MapSeq(NormConnection, cs) == cs <==> FullConnections(cs)
  {
    MapSeqAt(NormConnection, cs);
    assert forall i :: 0 <= i < |cs| ==> (NormConnection(cs[i]) == cs[i] <==> FullTransport(cs[i].network, cs[i].typ, cs[i].address));
  }

  lemma PairsUnchanged(ks: seq<Key>, xs: seq<Attr>)
    ensures MapSeq(NormKey, ks) == ks && MapSeq(NormAttr, xs) == xs <==> Named(ks, xs)
  {
    MapSeqAt(NormKey, ks);
    MapSeqAt(NormAttr, xs);
    assert forall i :: 0 <= i < |ks| ==> (NormKey(ks[i]) == ks[i] <==> ks[i].kind != "");
    assert forall i :: 0 <= i < |xs| ==> (NormAttr(xs[i]) == xs[i] <==> xs[i].name != "");
  }

  lemma FormatsUnchanged(fs: seq<Format>)
    ensures MapSeq(NormFormat, fs) == fs <==> FullFormats(fs)
  {
    MapSeqAt(NormFormat, fs);
    forall i | 0 <= i < |fs|
      ensures NormFormat(fs[i]) == fs[i] <==> "" !in fs[i].feedback && "" !in fs[i].params
    {
      TextsUnchanged(fs[i].feedback);
      TextsUnchanged(fs[i].params);
    }
  }

  lemma MediaUnchanged(m: Media)
    ensures NormMedia(m) == m <==> FullMedia(m)
  {
    hide MapSeq, FullConnections, Named, FullFormats;
    ConnectionsUnchanged(m.connection);
    PairsUnchanged(m.key, m.attributes);
    FormatsUnchanged(m.formats);
  }

  lemma SectionsUnchanged(ms: seq<Media>)
    ensures MapSeq(NormMedia, ms) == ms <==> forall i :: 0 <= i < |ms| ==> FullMedia(ms[i])
  {
    hide MapSeq, FullMedia, NormMedia;
    MapSeqAt(NormMedia, ms);
    forall i | 0 <= i < |ms|
      ensures NormMedia(ms[i]) == ms[i] <==> FullMedia(ms[i])
    {
      MediaUnchanged(ms[i]);
    }
  }

  lemma NormUnchanged(s: Session)
    ensures Norm(s) == s <==> Full(s)
  {
    hide MapSeq, Named, FullMedia, NormMedia;
    if s.connection.Some? {
      var c := s.connection.value;
      assert FullConnections([c]) <==> FullTransport([c][0].network, [c][0].typ, [c][0].address);
      assert NormConnection(c) == c <==> FullTransport(c.network, c.typ, c.address);
    }
    TextsUnchanged(s.email);
    TextsUnchanged(s.phone);
    PairsUnchanged(s.key, s.attributes);
    SectionsUnchanged(s.media);
  }

  /** Of the sessions that can be written, those come back unchanged that leave no field empty that is always written. */
  lemma UnchangedExactly(s: Session, order: seq<string>, orders: seq<seq<string>>)
    requires GoodSession(s) && Walks(order, s.bandwidth) && MediaWalks(orders, s.media)
    ensures Decode(Render(SessionLines(s, order, orders))) == Done(s) <==> Full(s)
  {
    hide GoodSession, Walks, MediaWalks, Decode, Render, SessionLines, Norm, Full;
    SdpTheorems.RoundTrip(s, order, orders);
    NormUnchanged(s);
  }

  /** What the empty fields become: a dash, the local host over IPv4, and no end of the timing. */
  lemma EmptyBecomes(s: Session, o: Origin, c: Connection)
    requires s.origin == Some(o) && o.username == "" && o.network == "" && o.typ == "" && o.address == ""
    requires s.connection == Some(c) && c.network == "" && c.typ == "" && c.address == ""
    requires s.name == "" && s.email == [""] && s.phone == [""] && s.timing == None
    requires s.key == [Key("", "")] && s.attributes == [Attr("", "")]
    ensures
      var r := Norm(s);
      && r.origin == Some(Origin("-", o.sessionId, o.sessionVersion, "IN", "IP4", "127.0.0.1"))
      && r.connection == Some(Connection("IN", "IP4", "127.0.0.1", c.ttl, c.addressNum))
      && r.name == "-" && r.email == ["-"] && r.phone == ["-"] && r.timing == Some(Timing(ZERO_TIME, ZERO_TIME))
      && r.key == [Key("-", "")] && r.attributes == [Attr("-", "")]
  {
  }
}
