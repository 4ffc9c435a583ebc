/**
 Session descriptions (RFC 4566 with the GB/T 28181 `y=` and `f=` lines): the data, the lines the
 encoder writes, and what a description looks like after a trip through text.
 */
module Sdp {
  import opened Text

  type int64 = n: int | MIN_INT64 <= n <= MAX_INT64

  /** An instant, as seconds and nanoseconds since the Unix epoch. */
  datatype Time = Time(sec: int64, nsec: nat)

  /** January 1 of year 1, the zero time. */
  const ZERO_TIME := Time(-62_135_596_800, 0)

  type Duration = int64   // nanoseconds

  const SECOND: int := 1_000_000_000

  datatype Origin = Origin(username: string, sessionId: int64, sessionVersion: int64, network: string, typ: string, address: string)

  datatype Connection = Connection(network: string, typ: string, address: string, ttl: int64, addressNum: int64)

  datatype TimeZone = TimeZone(time: Time, offset: Duration)

  datatype Key = Key(kind: string, value: string)

  datatype Attr = Attr(name: string, value: string)

  datatype Timing = Timing(start: Time, stop: Time)

  datatype Repeat = Repeat(interval: Duration, duration: Duration, offsets: seq<Duration>)

  type Bandwidth = map<string, int64>

  datatype Format = Format(payload: int64, name: string, clockRate: int64, channels: int64, feedback: seq<string>, params: seq<string>)

  datatype Media = Media(
    typ: string,
    port: int64,
    portNum: int64,
    proto: string,
    information: string,
    connection: seq<Connection>,
    bandwidth: Bandwidth,
    key: seq<Key>,
    attributes: seq<Attr>,
    mode: string,
    formats: seq<Format>,
    ssrc: string,
    description: string)

  datatype Session = Session(
    version: int64,
    origin: Option<Origin>,
    name: string,
    information: string,
    uri: string,
    email: seq<string>,
    phone: seq<string>,
    connection: Option<Connection>,
    bandwidth: Bandwidth,
    timeZone: seq<TimeZone>,
    key: seq<Key>,
    attributes: seq<Attr>,
    timing: Option<Timing>,
    repeat: seq<Repeat>,
    media: seq<Media>,
    mode: string)

  const NO_SESSION := Session(0, None, "", "", "", [], [], None, map[], [], [], [], None, [], [], "")

  const NO_MEDIA := Media("", 0, 0, "", "", [], map[], [], [], "", [], "", "")

  predicate IsMode(s: string) { s == "inactive" || s == "recvonly" || s == "sendonly" || s == "sendrecv" }

  predicate IsFormatAttribute(s: string) { s == "rtpmap" || s == "rtcp-fb" || s == "fmtp" }

  /** The first format with this payload type, or the number of formats when there is none. */
  function FormatIndex(fs: seq<Format>, pt: int64): (i: nat)
    ensures i <= |fs|
    ensures i < |fs| ==> fs[i].payload == pt
    ensures forall j :: 0 <= j < i ==> fs[j].payload != pt
  {
    if fs == [] || fs[0].payload == pt then 0 else 1 + FormatIndex(fs[1..], pt)
  }

  // ---------------------------------------------------------------- the values of the lines

  /** An empty string is written as a dash. */
  function Dash(s: string): string { if s == "" then "-" else s }

  function Default(s: string, d: string): string { if s == "" then d else s }

  function TransportPieces(network: string, typ: string, address: string): seq<string>
  {
    [Default(network, "IN"), Default(typ, "IP4"), Default(address, "127.0.0.1")]
  }

  function OriginText(o: Origin): string
  {
    JoinAll([Dash(o.username), Show(o.sessionId), Show(o.sessionVersion)] + TransportPieces(o.network, o.typ, o.address), ' ')
  }

  /** A TTL and an address count follow the address after slashes, when there are any. */
  function AddressPieces(c: Connection): seq<string>
  {
    [Default(c.address, "127.0.0.1")]
    + (if c.ttl > 0 then [Show(c.ttl)] else [])
    + (if c.addressNum > 1 then [Show(c.addressNum)] else [])
  }

  function ConnectionText(c: Connection): string
  {
    JoinAll([Default(c.network, "IN"), Default(c.typ, "IP4"), JoinAll(AddressPieces(c), '/')], ' ')
  }

  function TimeText(t: Time): string { if t == ZERO_TIME then "0" else Show(t.sec) }

  /** Whole seconds of a duration, the fraction dropped. */
  function Seconds(d: Duration): int64 { var n: int := d; if n < 0 then -((-n) / SECOND) else n / SECOND }

  function DurationText(d: Duration): string
  {
    var v := Seconds(d);
    if v == 0 then "0"
    else if v % 86400 == 0 then Show(v / 86400) + "d"
    else if v % 3600 == 0 then Show(v / 3600) + "h"
    else if v % 60 == 0 then Show(v / 60) + "m"
    else Show(v)
  }

  function TimingText(t: Option<Timing>): string
  {
    match t
    case None => "0 0"
    case Some(t) => JoinAll([TimeText(t.start), TimeText(t.stop)], ' ')
  }

  function ZonePieces(zs: seq<TimeZone>): (r: seq<string>)
    ensures |r| == 2 * |zs|
  {
    if zs == [] then [] else [TimeText(zs[0].time), DurationText(zs[0].offset)] + ZonePieces(zs[1..])
  }

  function OffsetPieces(ds: seq<Duration>): (r: seq<string>)
    ensures |r| == |ds|
  {
    if ds == [] then [] else [DurationText(ds[0])] + OffsetPieces(ds[1..])
  }

  function RepeatText(r: Repeat): string
  {
    JoinAll([DurationText(r.interval), DurationText(r.duration)] + OffsetPieces(r.offsets), ' ')
  }

  function PairText(name: string, value: string): string
  {
    if value == "" then Dash(name) else JoinAll([Dash(name), value], ':')
  }

  function PayloadPieces(fs: seq<Format>): (r: seq<string>)
    ensures |r| == |fs|
  {
    if fs == [] then [] else [Show(fs[0].payload)] + PayloadPieces(fs[1..])
  }

  /** The payload types, or a star. */
  function FormatList(fs: seq<Format>): string { if fs == [] then "*" else JoinAll(PayloadPieces(fs), ' ') }

  function PortText(m: Media): string
  {
    JoinAll([Show(m.port)] + (if m.portNum > 0 then [Show(m.portNum)] else []), '/')
  }

  function MediaText(m: Media): string { JoinAll([Dash(m.typ), PortText(m), Dash(m.proto), FormatList(m.formats)], ' ') }

  // ---------------------------------------------------------------- lines

  datatype Line = Line(kind: char, value: string)

  function Strings(kind: char, vs: seq<string>): seq<Line>
  {
    if vs == [] then [] else [Line(kind, Dash(vs[0]))] + Strings(kind, vs[1..])
  }

  function Optional(kind: char, v: string): seq<Line> { if v == "" then [] else [Line(kind, v)] }

  function OriginLine(o: Option<Origin>): seq<Line>
  {
    match o
    case None => []
    case Some(o) => [Line('o', OriginText(o))]
  }

  function ConnectionLine(c: Option<Connection>): seq<Line>
  {
    match c
    case None => []
    case Some(c) => [Line('c', ConnectionText(c))]
  }

  function ConnectionLines(cs: seq<Connection>): seq<Line>
  {
    if cs == [] then [] else [Line('c', ConnectionText(cs[0]))] + ConnectionLines(cs[1..])
  }

  /** The order in which a bandwidth map is walked: each key once. */
  ghost predicate Walks(order: seq<string>, b: Bandwidth)
  {
    && (forall i, j :: 0 <= i < j < |order| ==> order[i] != order[j])
    && (forall k :: k in order <==> k in b)
  }

  function BandwidthLines(b: Bandwidth, order: seq<string>): seq<Line>
    requires forall k :: k in order ==> k in b
  {
    if order == [] then []
    else [Line('b', JoinAll([Dash(order[0]), Show(b[order[0]])], ':'))] + BandwidthLines(b, order[1..])
  }

  function ZoneLine(zs: seq<TimeZone>): seq<Line> { if zs == [] then [] else [Line('z', JoinAll(ZonePieces(zs), ' '))] }

  function KeyLines(ks: seq<Key>): seq<Line>
  {
    if ks == [] then [] else [Line('k', PairText(ks[0].kind, ks[0].value))] + KeyLines(ks[1..])
  }

  function AttrLines(xs: seq<Attr>): seq<Line>
  {
    if xs == [] then [] else [Line('a', PairText(xs[0].name, xs[0].value))] + AttrLines(xs[1..])
  }

  function RepeatLines(rs: seq<Repeat>): seq<Line>
  {
    if rs == [] then [] else [Line('r', RepeatText(rs[0]))] + RepeatLines(rs[1..])
  }

  function RtpmapPieces(f: Format): seq<string>
  {
    [f.name, Show(f.clockRate)] + (if f.channels > 0 then [Show(f.channels)] else [])
  }

  /** An attribute about one payload type: `name:payload value`. */
  function PayloadText(name: string, payload: int64, v: string): string
  {
    JoinAll([name, JoinAll([Show(payload), v], ' ')], ':')
  }

  function RtpmapLine(f: Format): seq<Line>
  {
    if f.name == "" then [] else [Line('a', PayloadText("rtpmap", f.payload, JoinAll(RtpmapPieces(f), '/')))]
  }

  /** One attribute line per value, for a payload type. */
  function PayloadLines(name: string, payload: int64, vs: seq<string>): seq<Line>
  {
    if vs == [] then [] else [Line('a', PayloadText(name, payload, Dash(vs[0])))] + PayloadLines(name, payload, vs[1..])
  }

  function FormatLines(f: Format): seq<Line>
  {
    RtpmapLine(f) + PayloadLines("rtcp-fb", f.payload, f.feedback) + PayloadLines("fmtp", f.payload, f.params)
  }

  function FormatsLines(fs: seq<Format>): seq<Line>
  {
    if fs == [] then [] else FormatLines(fs[0]) + FormatsLines(fs[1..])
  }

  function MediaLines(m: Media, order: seq<string>): seq<Line>
    requires forall k :: k in order ==> k in m.bandwidth
  {
    [Line('m', MediaText(m))]
    + Optional('a', m.mode)
    + Optional('i', m.information)
    + ConnectionLines(m.connection)
    + BandwidthLines(m.bandwidth, order)
    + KeyLines(m.key)
    + FormatsLines(m.formats)
    + AttrLines(m.attributes)
    + Optional('y', m.ssrc)
    + Optional('f', m.description)
  }

  ghost predicate MediaWalks(orders: seq<seq<string>>, ms: seq<Media>)
  {
    |orders| == |ms| && forall i :: 0 <= i < |ms| ==> Walks(orders[i], ms[i].bandwidth)
  }

  ghost function AllMediaLines(ms: seq<Media>, orders: seq<seq<string>>): seq<Line>
    requires MediaWalks(orders, ms)
  {
    if ms == [] then [] else MediaLines(ms[0], orders[0]) + AllMediaLines(ms[1..], orders[1..])
  }

  function HeaderLines(s: Session, order: seq<string>): seq<Line>
    requires forall k :: k in order ==> k in s.bandwidth
  {
    [Line('v', Show(s.version))]
    + OriginLine(s.origin)
    + [Line('s', Dash(s.name))]
    + Optional('i', s.information)
    + Optional('u', s.uri)
    + Strings('e', s.email)
    + Strings('p', s.phone)
    + ConnectionLine(s.connection)
    + BandwidthLines(s.bandwidth, order)
    + ZoneLine(s.timeZone)
    + KeyLines(s.key)
    + Optional('a', s.mode)
    + AttrLines(s.attributes)
    + [Line('t', TimingText(s.timing))]
    + RepeatLines(s.repeat)
  }

  ghost function SessionLines(s: Session, order: seq<string>, orders: seq<seq<string>>): seq<Line>
    requires Walks(order, s.bandwidth) && MediaWalks(orders, s.media)
  {
    HeaderLines(s, order) + AllMediaLines(s.media, orders)
  }

  function LineText(l: Line): string { [l.kind, '='] + l.value }

  /** The text: every line ends with CR LF. */
  function Render(ls: seq<Line>): string
  {
    if ls == [] then "" else LineText(ls[0]) + "\r\n" + Render(ls[1..])
  }

  // ---------------------------------------------------------------- descriptions that survive

  predicate NoBreak(s: string) { Free(s, '\r') && Free(s, '\n') }

  predicate Lacks(s: string, c: char) { NoBreak(s) && Free(s, c) }

  predicate GoodTime(t: Time) { t.nsec == 0 && t.sec != 0 }

  predicate GoodDuration(d: Duration) { d % SECOND == 0 }

  predicate GoodOrigin(o: Origin)
  {
    Lacks(o.username, ' ') && Lacks(o.network, ' ') && Lacks(o.typ, ' ') && NoBreak(o.address)
  }

  /** No slash inside the address, no TTL, and no single-address count (see ConnectionRoundTripExactly). */
  predicate GoodConnection(c: Connection)
  {
    && Lacks(c.network, ' ') && Lacks(c.typ, ' ') && Lacks(c.address, '/')
    && c.ttl == 0 && (c.addressNum == 0 || c.addressNum >= 2)
  }

  predicate GoodBandwidth(b: Bandwidth) { forall k :: k in b ==> k != "" && Lacks(k, ':') }

  predicate GoodZone(z: TimeZone) { GoodTime(z.time) && GoodDuration(z.offset) }

  predicate GoodKey(k: Key) { Lacks(k.kind, ':') && NoBreak(k.value) }

  predicate GoodAttr(x: Attr) { Lacks(x.name, ':') && NoBreak(x.value) && !IsMode(x.name) }

  predicate GoodRepeat(r: Repeat)
  {
    GoodDuration(r.interval) && GoodDuration(r.duration) && |r.offsets| <= 1022 && forall i :: 0 <= i < |r.offsets| ==> GoodDuration(r.offsets[i])
  }

  predicate GoodFormat(f: Format)
  {
    && Lacks(f.name, '/') && f.channels >= 0
    && (f.name == "" ==> f.clockRate == 0 && f.channels == 0)
    && (forall i :: 0 <= i < |f.feedback| ==> NoBreak(f.feedback[i]))
    && (forall i :: 0 <= i < |f.params| ==> NoBreak(f.params[i]))
  }

  predicate GoodMedia(m: Media)
  {
    && Lacks(m.typ, ' ') && Lacks(m.proto, ' ') && m.portNum >= 0
    && NoBreak(m.information) && NoBreak(m.ssrc) && NoBreak(m.description)
    && (m.mode == "" || IsMode(m.mode))
    && (forall i :: 0 <= i < |m.connection| ==> GoodConnection(m.connection[i]))
    && GoodBandwidth(m.bandwidth)
    && (forall i :: 0 <= i < |m.key| ==> GoodKey(m.key[i]))
    && (forall i :: 0 <= i < |m.attributes| ==> GoodAttr(m.attributes[i]) && !IsFormatAttribute(m.attributes[i].name))
    && (forall i :: 0 <= i < |m.formats| ==> GoodFormat(m.formats[i]))
    && |m.formats| <= 1024
    && (forall i, j :: 0 <= i < j < |m.formats| ==> m.formats[i].payload != m.formats[j].payload)
  }

  predicate GoodSession(s: Session)
  {
    && s.origin.Some? && GoodOrigin(s.origin.value)
    && NoBreak(s.name) && NoBreak(s.information) && NoBreak(s.uri)
    && (forall i :: 0 <= i < |s.email| ==> NoBreak(s.email[i]))
    && (forall i :: 0 <= i < |s.phone| ==> NoBreak(s.phone[i]))
    && (s.connection.Some? ==> GoodConnection(s.connection.value))
    && GoodBandwidth(s.bandwidth)
    && |s.timeZone| <= 20 && (forall i :: 0 <= i < |s.timeZone| ==> GoodZone(s.timeZone[i]))
    && (forall i :: 0 <= i < |s.key| ==> GoodKey(s.key[i]))
    && (s.mode == "" || IsMode(s.mode))
    && (forall i :: 0 <= i < |s.attributes| ==> GoodAttr(s.attributes[i]))
    && (s.timing.Some? ==> GoodTime(s.timing.value.start) && GoodTime(s.timing.value.stop))
    && (forall i :: 0 <= i < |s.repeat| ==> GoodRepeat(s.repeat[i]))
    && (forall i :: 0 <= i < |s.media| ==> GoodMedia(s.media[i]))
  }

  // ---------------------------------------------------------------- what survives of them

  function MapSeq<A, B>(f: A -> B, xs: seq<A>): (r: seq<B>)
    ensures |r| == |xs|
  {
    if xs == [] then [] else [f(xs[0])] + MapSeq(f, xs[1..])
  }

  function NormOrigin(o: Origin): Origin
  {
    o.(username := Dash(o.username), network := Default(o.network, "IN"), typ := Default(o.typ, "IP4"),
       address := Default(o.address, "127.0.0.1"))
  }

  function NormConnection(c: Connection): Connection
  {
    c.(network := Default(c.network, "IN"), typ := Default(c.typ, "IP4"), address := Default(c.address, "127.0.0.1"))
  }

  function NormKey(k: Key): Key { k.(kind := Dash(k.kind)) }

  function NormAttr(x: Attr): Attr { x.(name := Dash(x.name)) }

  function NormFormat(f: Format): Format
  {
    f.(feedback := MapSeq(Dash, f.feedback), params := MapSeq(Dash, f.params))
  }

  function NormMedia(m: Media): Media
  {
    m.(typ := Dash(m.typ), proto := Dash(m.proto), connection := MapSeq(NormConnection, m.connection), key := MapSeq(NormKey, m.key),
       attributes := MapSeq(NormAttr, m.attributes), formats := MapSeq(NormFormat, m.formats))
  }

  /** Empty transport fields become their defaults, other empty mandatory fields a dash, and no timing the zero timing. */
  function Norm(s: Session): Session
  {
    s.(origin := if s.origin.Some? then Some(NormOrigin(s.origin.value)) else None,
       name := Dash(s.name),
       email := MapSeq(Dash, s.email),
       phone := MapSeq(Dash, s.phone),
       connection := if s.connection.Some? then Some(NormConnection(s.connection.value)) else None,
       key := MapSeq(NormKey, s.key),
       attributes := MapSeq(NormAttr, s.attributes),
       timing := if s.timing.Some? then s.timing else Some(Timing(ZERO_TIME, ZERO_TIME)),
       media := MapSeq(NormMedia, s.media))
  }
}
