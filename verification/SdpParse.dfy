/**
 What the decoder computes: lines out of text, fields out of lines, and a session built line by line.
 Fields are cut by a pure `Split`; the decoder's shared scratch slice is in module SdpDecoder.
 */
module SdpParse {
  import opened Text
  import opened Sdp

  datatype ErrorKind = BadFormat | UnexpectedField | BadNumber

  datatype Error = Eof | AtLine(kind: ErrorKind, line: nat, text: string)

  datatype Result<+T> = Ok(value: T) | Err(kind: ErrorKind)
  {
    predicate IsFailure() { Err? }

    function PropagateFailure<U>(): Result<U>
      requires Err?
    {
      Err(kind)
    }

    function Extract(): T
      requires Ok?
    {
      value
    }
  }

  datatype Decoded = Done(session: Session) | Failed(error: Error)

  const MAX_LINE: nat := 1024

  /** Position of the first `c`, or the length when there is none. */
  function IndexOf(s: string, c: char): (k: nat)
    ensures k <= |s|
    ensures forall i :: 0 <= i < k ==> s[i] != c
    ensures k < |s| ==> s[k] == c
  {
    if s == "" || s[0] == c then 0 else 1 + IndexOf(s[1..], c)
  }

  /** At most n pieces; the last one keeps the separators that are left. */
  function Split(s: string, sep: char, n: nat): (r: seq<string>)
    requires n >= 1
    ensures 0 < |r| <= n
    decreases |s|
  {
    var k := IndexOf(s, sep);
    if n == 1 || k == |s| then [s] else [s[..k]] + Split(s[k + 1..], sep, n - 1)
  }

  function Int(s: string): Result<int64>
  {
    match ParseInt(s)
    case None => Err(BadNumber)
    case Some(n) => Ok(n)
  }

  /** Two's complement wrap-around of 64-bit products. */
  function Wrap64(n: int): int64 { (n - MIN_INT64) % 0x1_0000_0000_0000_0000 + MIN_INT64 }

  function TimeOf(v: string): Result<Time>
  {
    var sec :- Int(v);
    Ok(if sec == 0 then ZERO_TIME else Time(sec, 0))
  }

  function Unit(v: string): (r: (int, string))
    ensures r.0 in {1, 60, 3600, 86400}
  {
    if v == "" then (1, v)
    else
      var n := |v| - 1;
      if v[n] == 'd' then (86400, v[..n])
      else if v[n] == 'h' then (3600, v[..n])
      else if v[n] == 'm' then (60, v[..n])
      else if v[n] == 's' then (1, v[..n])
      else (1, v)
  }

  function DurationOf(v: string): Result<Duration>
  {
    var (m, digits) := Unit(v);
    var sec :- Int(digits);
    Ok(Wrap64(Wrap64(sec * m) * SECOND))
  }

  function OriginOf(v: string): Result<Origin>
  {
    var p := Split(v, ' ', 6);
    if |p| != 6 then Err(BadFormat)
    else
      var id :- Int(p[1]);
      var ver :- Int(p[2]);
      Ok(Origin(p[0], id, ver, p[3], p[4], p[5]))
  }

  function ConnectionOf(v: string): Result<Connection>
  {
    var f := Split(v, ' ', 3);
    if |f| != 3 then Err(BadFormat)
    else
      var p := Split(f[2], '/', 3);
      if |p| == 3 then
        var ttl :- Int(p[1]);
        var num :- Int(p[2]);
        Ok(Connection(f[0], f[1], p[1], ttl, num))
      else if |p| == 2 then
        var num :- Int(p[1]);
        Ok(Connection(f[0], f[1], p[0], 0, num))
      else Ok(Connection(f[0], f[1], f[2], 0, 0))
  }

  function BandwidthOf(b: Bandwidth, v: string): Result<Bandwidth>
  {
    var p := Split(v, ':', 2);
    if |p| != 2 then Err(BadFormat)
    else
      var n :- Int(p[1]);
      Ok(b[p[0] := n])
  }

  function ZonesFrom(p: seq<string>): Result<seq<TimeZone>>
  {
    if |p| <= 1 then Ok([])
    else
      var t :- TimeOf(p[0]);
      var d :- DurationOf(p[1]);
      var rest :- ZonesFrom(p[2..]);
      Ok([TimeZone(t, d)] + rest)
  }

  function ZonesOf(v: string): Result<seq<TimeZone>> { ZonesFrom(Split(v, ' ', 40)) }

  function KeyOf(v: string): Key
  {
    var p := Split(v, ':', 2);
    if |p| == 2 then Key(p[0], p[1]) else Key(v, "")
  }

  function AttrOf(v: string): Attr
  {
    var p := Split(v, ':', 2);
    if |p| == 2 then Attr(p[0], p[1]) else Attr(v, "")
  }

  function TimingOf(v: string): Result<Timing>
  {
    var p := Split(v, ' ', 2);
    if |p| != 2 then Err(BadFormat)
    else
      var start :- TimeOf(p[0]);
      var stop :- TimeOf(p[1]);
      Ok(Timing(start, stop))
  }

  function OffsetsOf(p: seq<string>): Result<seq<Duration>>
  {
    if p == [] then Ok([])
    else
      var d :- DurationOf(p[0]);
      var rest :- OffsetsOf(p[1..]);
      Ok([d] + rest)
  }

  function RepeatOf(v: string): Result<Repeat>
  {
    var p := Split(v, ' ', MAX_LINE);
    if |p| < 2 then Err(BadFormat)
    else
      var interval :- DurationOf(p[0]);
      var duration :- DurationOf(p[1]);
      var offsets :- OffsetsOf(p[2..]);
      Ok(Repeat(interval, duration, offsets))
  }

  function PayloadsOf(p: seq<string>): Result<seq<Format>>
  {
    if p == [] then Ok([])
    else if p[0] == "*" then PayloadsOf(p[1..])
    else
      var pt :- Int(p[0]);
      var rest :- PayloadsOf(p[1..]);
      Ok([Bare(pt)] + rest)
  }

  /** A format known by its payload type only. */
  function Bare(pt: int64): Format { Format(pt, "", 0, 0, [], []) }

  function ProtoOf(m: Media, v: string): Result<Media>
  {
    var p := Split(v, ' ', 4);
    if |p| != 4 then Err(BadFormat)
    else
      var q := Split(p[1], '/', 2);
      var portNum :- if |q| == 2 then Int(q[1]) else Ok(m.portNum);
      var port :- Int(q[0]);
      var fs :- PayloadsOf(Split(p[3], ' ', MAX_LINE));
      Ok(m.(typ := p[0], proto := p[2], portNum := portNum, port := port, formats := m.formats + fs))
  }

  function RtpmapOf(f: Format, v: string): Result<Format>
  {
    var p := Split(v, '/', 3);
    var q := if |p| < 2 then Split(v + "/90000", '/', 3) else p;
    if |q| < 2 then Err(BadFormat)
    else
      var channels :- if |q| == 3 then Int(q[2]) else Ok(f.channels);
      var clockRate :- Int(q[1]);
      Ok(f.(name := q[0], channels := channels, clockRate := clockRate))
  }

  function FormatAttribute(m: Media, a: Attr): Result<Media>
  {
    var p := Split(a.value, ' ', 2);
    if |p| != 2 then Err(BadFormat)
    else
      var pt :- Int(p[0]);
      var i := FormatIndex(m.formats, pt);
      if i == |m.formats| then Ok(m)
      else
        var f := m.formats[i];
        var f' :-
          if a.name == "rtpmap" then RtpmapOf(f, p[1])
          else if a.name == "rtcp-fb" then Ok(f.(feedback := f.feedback + [p[1]]))
          else if a.name == "fmtp" then Ok(f.(params := f.params + [p[1]]))
          else Ok(f);
        Ok(m.(formats := m.formats[i := f']))
  }

  function MediaField(m: Media, f: char, v: string): Result<Media>
  {
    if f == 'm' then ProtoOf(m, v)
    else if f == 'i' then Ok(m.(information := v))
    else if f == 'c' then
      var c :- ConnectionOf(v);
      Ok(m.(connection := m.connection + [c]))
    else if f == 'b' then
      var b :- BandwidthOf(m.bandwidth, v);
      Ok(m.(bandwidth := b))
    else if f == 'k' then Ok(m.(key := m.key + [KeyOf(v)]))
    else if f == 'a' then
      var a := AttrOf(v);
      if IsMode(a.name) then Ok(m.(mode := a.name))
      else if IsFormatAttribute(a.name) then FormatAttribute(m, a)
      else Ok(m.(attributes := m.attributes + [a]))
    else if f == 'y' then Ok(m.(ssrc := v))
    else if f == 'f' then Ok(m.(description := v))
    else Err(UnexpectedField)
  }

  function SessionField(s: Session, f: char, v: string): Result<Session>
  {
    if f == 'v' then
      var n :- Int(v);
      Ok(s.(version := n))
    else if f == 'o' then
      if s.origin.Some? then Err(UnexpectedField)
      else
        var o :- OriginOf(v);
        Ok(s.(origin := Some(o)))
    else if f == 's' then Ok(s.(name := v))
    else if f == 'i' then Ok(s.(information := v))
    else if f == 'u' then Ok(s.(uri := v))
    else if f == 'e' then Ok(s.(email := s.email + [v]))
    else if f == 'p' then Ok(s.(phone := s.phone + [v]))
    else if f == 'c' then
      if s.connection.Some? then Err(UnexpectedField)
      else
        var c :- ConnectionOf(v);
        Ok(s.(connection := Some(c)))
    else if f == 'b' then
      var b :- BandwidthOf(s.bandwidth, v);
      Ok(s.(bandwidth := b))
    else if f == 'z' then
      var z :- ZonesOf(v);
      Ok(s.(timeZone := z))
    else if f == 'k' then Ok(s.(key := s.key + [KeyOf(v)]))
    else if f == 'a' then
      var a := AttrOf(v);
      if IsMode(a.name) then Ok(s.(mode := a.name)) else Ok(s.(attributes := s.attributes + [a]))
    else if f == 't' then
      var t :- TimingOf(v);
      Ok(s.(timing := Some(t)))
    else if f == 'r' then
      var r :- RepeatOf(v);
      Ok(s.(repeat := s.repeat + [r]))
    else Err(UnexpectedField)
  }

  /** The session so far; lines belong to its last media once there is one. */
  function Field(s: Session, f: char, v: string): Result<Session>
  {
    if f == 'm' then
      var m :- MediaField(NO_MEDIA, f, v);
      Ok(s.(media := s.media + [m]))
    else if s.media == [] then SessionField(s, f, v)
    else
      var last := |s.media| - 1;
      var m :- MediaField(s.media[last], f, v);
      Ok(s.(media := s.media[last := m]))
  }

  // ---------------------------------------------------------------- text

  function TrimReturns(s: string): string
  {
    if s != "" && s[|s| - 1] == '\r' then TrimReturns(s[..|s| - 1]) else s
  }

  /** The next line without its line end, and the text after it. */
  function ReadLine(s: string): (r: (string, string))
    requires s != ""
    ensures |r.1| < |s|
  {
    var k := IndexOf(s, '\n');
    if k == |s| then (s, "") else (TrimReturns(s[..k]), s[k + 1..])
  }

  function DecodeFrom(text: string, s: Session, line: nat): Decoded
    decreases |text|
  {
    if text == "" then (if s.origin.Some? then Done(s) else Failed(Eof))
    else
      var (t, rest) := ReadLine(text);
      if t == "" && s.origin.Some? then Done(s)
      else if |t| < 2 || t[1] != '=' then Failed(AtLine(BadFormat, line, t))
      else
        match Field(s, t[0], t[2..])
        case Err(kind) => Failed(AtLine(kind, line, t))
        case Ok(s') => DecodeFrom(rest, s', line + 1)
  }

  function Decode(text: string): Decoded { DecodeFrom(text, NO_SESSION, 1) }
}
