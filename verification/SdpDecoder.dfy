/**
 The decoder as the program runs it: one scratch array holds the pieces of every cut, so a cut made
 while reading a field overwrites the pieces of the cut before it. Every method agrees with the pure
 functions of module SdpParse, in which nothing is shared.
 */
module SdpDecoder {
  import opened Text
  import opened Sdp
  import opened SdpParse

  class Decoder {
    var s: string           // the text still to read
    var p: array<string>    // scratch space; its length is the capacity

    constructor (text: string)
      ensures s == text && fresh(p)
    {
      s := text;
      p := new string[0];
    }

    // -------------------------------------------------------------- cutting

    /** append: writes in place while there is room and moves to a larger array when there is none. */
    method Push(count: nat, piece: string)
      requires count <= p.Length
      modifies this`p, p
      ensures p == old(p) || fresh(p)
      ensures count < p.Length && p[..count + 1] == old(p[..count]) + [piece]
    {
      if count == p.Length {
        var q := new string[2 * count + 1](_ => "");
        for i := 0 to count
          invariant p == old(p) && p[..] == old(p[..])
          invariant q[..i] == p[..i]
        {
          q[i] := p[i];
        }
        p := q;
      }
      p[count] := piece;
    }

    /** Cuts a field; the pieces are at the front of the scratch array until the next cut. */
    method Split(v: string, sep: char, n: nat) returns (count: nat)
      requires n >= 2
      modifies this`p, p
      ensures p == old(p) || fresh(p)
      ensures count <= p.Length && p[..count] == SdpParse.Split(v, sep, n)
    {
      hide SdpParse.Split;
      count := 0;
      var pos := 0;
      assert v[0..] == v;
      var i := 0;
      while i < |v|
        invariant pos <= i <= |v| && count <= p.Length && count < n - 1
        invariant p == old(p) || fresh(p)
        invariant forall k :: pos <= k < i ==> v[k] != sep
        invariant p[..count] + SdpParse.Split(v[pos..], sep, n - count) == SdpParse.Split(v, sep, n)
        decreases |v| - i
      {
        if v[i] == sep {
          ghost var done, piece, rest := p[..count], v[pos..i], SdpParse.Split(v[i + 1..], sep, n - count - 1);
          CutAt(v[pos..], sep, n - count, i - pos);
          assert v[pos..][..i - pos] == piece && v[pos..][i - pos + 1..] == v[i + 1..];
          Push(count, v[pos..i]);
          count := count + 1;
          pos := i + 1;
          assert done + ([piece] + rest) == done + [piece] + rest;
          if count >= n - 1 {
            break;
          }
        }
        i := i + 1;
      }
      NoCut(v[pos..], sep, n - count);
      Push(count, v[pos..]);
      count := count + 1;
    }

    // -------------------------------------------------------------- numbers and times

    method Int(v: string) returns (r: Result<int64>)
      ensures r == SdpParse.Int(v)
    {
      match ParseInt(v)
      case None => r := Err(BadNumber);
      case Some(n) => r := Ok(n);
    }

    method Time(v: string) returns (r: Result<Time>)
      ensures r == TimeOf(v)
    {
      var sec :- Int(v);
      if sec == 0 {
        return Ok(ZERO_TIME);
      }
      return Ok(Sdp.Time(sec, 0));
    }

    method Duration(v: string) returns (r: Result<Duration>)
      ensures r == DurationOf(v)
    {
      var m: int := 1;
      var digits := v;
      var n := |v| - 1;
      if n >= 0 {
        if v[n] == 'd' {
          m, digits := 86400, v[..n];
        } else if v[n] == 'h' {
          m, digits := 3600, v[..n];
        } else if v[n] == 'm' {
          m, digits := 60, v[..n];
        } else if v[n] == 's' {
          digits := v[..n];
        }
      }
      var sec :- Int(digits);
      var seconds: int := sec;
      return Ok(Wrap64(Wrap64(seconds * m) * SECOND));
    }

    // -------------------------------------------------------------- fields

    method Origin(v: string) returns (r: Result<Origin>)
      modifies this`p, p
      ensures p == old(p) || fresh(p)
      ensures r == OriginOf(v)
    {
      hide SdpParse.Split, SdpParse.Int;
      var n := Split(v, ' ', 6);
      if n != 6 {
        return Err(BadFormat);
      }
      var id :- Int(p[1]);
      var ver :- Int(p[2]);
      return Ok(Sdp.Origin(p[0], id, ver, p[3], p[4], p[5]));
    }

    /** The address is cut again into the same scratch array, after the fields have been taken out of it. */
    method Connection(v: string) returns (r: Result<Connection>)
      modifies this`p, p
      ensures p == old(p) || fresh(p)
      ensures r == ConnectionOf(v)
    {
      hide SdpParse.Split, SdpParse.Int;
      var n := Split(v, ' ', 3);
      if n != 3 {
        return Err(BadFormat);
      }
      var network, typ, address := p[0], p[1], p[2];
      var ttl: int64, num: int64 := 0, 0;
      n := Split(address, '/', 3);
      var first := 0;
      if n == 3 {
        ttl :- Int(p[1]);
        first := 1;
      }
      if n - first > 1 {
        num :- Int(p[first + 1]);
        address := p[first];
      }
      return Ok(Sdp.Connection(network, typ, address, ttl, num));
    }

    method Bandwidth(b: Bandwidth, v: string) returns (r: Result<Bandwidth>)
      modifies this`p, p
      ensures p == old(p) || fresh(p)
      ensures r == BandwidthOf(b, v)
    {
      hide SdpParse.Split, SdpParse.Int;
      var n := Split(v, ':', 2);
      if n != 2 {
        return Err(BadFormat);
      }
      var val :- Int(p[1]);
      return Ok(b[p[0] := val]);
    }

    method TimeZones(v: string) returns (r: Result<seq<TimeZone>>)
      modifies this`p, p
      ensures p == old(p) || fresh(p)
      ensures r == ZonesOf(v)
    {
      hide SdpParse.Split, TimeOf, DurationOf;
      var n := Split(v, ' ', 40);
      var zone: seq<TimeZone> := [];
      var i := 0;
      ghost var q, pieces := p, p[..n];
      assert pieces[0..] == pieces && (ZonesFrom(pieces).Ok? ==> [] + ZonesFrom(pieces).value == ZonesFrom(pieces).value);
      while n - i > 1
        invariant p == q && i <= n <= p.Length && p[..n] == pieces
        invariant ZonesFrom(pieces) == ZonesOnto(zone, ZonesFrom(pieces[i..]))
      {
        var t := Time(p[i]);
        var d := Duration(p[i + 1]);
        ZonesUnfold(zone, pieces[i..]);
        assert pieces[i..][0] == p[i] && pieces[i..][1] == p[i + 1] && pieces[i..][2..] == pieces[i + 2..];
        if t.Err? {
          return Err(t.kind);
        }
        if d.Err? {
          return Err(d.kind);
        }
        zone := zone + [TimeZone(t.value, d.value)];
        i := i + 2;
      }
      assert zone + [] == zone;
      return Ok(zone);
    }

    method Key(v: string) returns (k: Key)
      modifies this`p, p
      ensures p == old(p) || fresh(p)
      ensures k == KeyOf(v)
    {
      hide SdpParse.Split;
      var n := Split(v, ':', 2);
      return if n == 2 then Sdp.Key(p[0], p[1]) else Sdp.Key(v, "");
    }

    method Attr(v: string) returns (a: Attr)
      modifies this`p, p
      ensures p == old(p) || fresh(p)
      ensures a == AttrOf(v)
    {
      hide SdpParse.Split;
      var n := Split(v, ':', 2);
      return if n == 2 then Sdp.Attr(p[0], p[1]) else Sdp.Attr(v, "");
    }

    method Timing(v: string) returns (r: Result<Timing>)
      modifies this`p, p
      ensures p == old(p) || fresh(p)
      ensures r == TimingOf(v)
    {
      hide SdpParse.Split, TimeOf;
      var n := Split(v, ' ', 2);
      if n != 2 {
        return Err(BadFormat);
      }
      var start :- Time(p[0]);
      var stop :- Time(p[1]);
      return Ok(Sdp.Timing(start, stop));
    }

    method Repeat(v: string) returns (r: Result<Repeat>)
      modifies this`p, p
      ensures p == old(p) || fresh(p)
      ensures r == RepeatOf(v)
    {
      hide SdpParse.Split, DurationOf;
      var n := Split(v, ' ', MAX_LINE);
      if n < 2 {
        return Err(BadFormat);
      }
      ghost var q, pieces := p, p[..n];
      var interval :- Duration(p[0]);
      var duration :- Duration(p[1]);
      var offsets: seq<Duration> := [];
      var tail := OffsetsOf(pieces[2..]);
      assert tail.Ok? ==> [] + tail.value == tail.value;
      for i := 2 to n
        invariant p == q && n <= p.Length && p[..n] == pieces
        invariant OffsetsOf(pieces[2..]) == OffsetsOnto(offsets, OffsetsOf(pieces[i..]))
      {
        var d := Duration(p[i]);
        OffsetsUnfold(offsets, pieces[i..]);
        assert pieces[i..][0] == p[i] && pieces[i..][1..] == pieces[i + 1..];
        if d.Err? {
          return Err(d.kind);
        }
        offsets := offsets + [d.value];
      }
      assert pieces[n..] == [] && offsets + [] == offsets;
      return Ok(Sdp.Repeat(interval, duration, offsets));
    }

    // -------------------------------------------------------------- media

    method Proto(m: Media, v: string) returns (r: Result<Media>)
      modifies this`p, p
      ensures p == old(p) || fresh(p)
      ensures r == ProtoOf(m, v)
    {
      hide SdpParse.Split, SdpParse.Int;
      var n := Split(v, ' ', 4);
      if n != 4 {
        return Err(BadFormat);
      }
      var formats := p[3];
      var typ, proto, port, portNum := p[0], p[2], m.port, m.portNum;
      n := Split(p[1], '/', 2);
      if n == 2 {
        portNum :- Int(p[1]);
      }
      port :- Int(p[0]);
      n := Split(formats, ' ', MAX_LINE);
      var fs :- Payloads(m.formats, n);
      return Ok(m.(typ := typ, proto := proto, portNum := portNum, port := port, formats := fs));
    }

    /** Reads the payload types that the last cut left in the scratch array. */
    method Payloads(before: seq<Format>, n: nat) returns (r: Result<seq<Format>>)
      requires n <= p.Length
      ensures r == FormatsOnto(before, PayloadsOf(p[..n]))
    {
      var formats := before;
      ghost var pieces := p[..n];
      assert pieces[0..] == pieces;
      for i := 0 to n
        invariant FormatsOnto(before, PayloadsOf(pieces)) == FormatsOnto(formats, PayloadsOf(pieces[i..]))
      {
        PayloadsUnfold(formats, pieces[i..]);
        assert pieces[i..][0] == p[i] && pieces[i..][1..] == pieces[i + 1..];
        if p[i] != "*" {
          var pt := Int(p[i]);
          if pt.Err? {
            return Err(pt.kind);
          }
          formats := formats + [Bare(pt.value)];
        }
      }
      assert pieces[n..] == [] && formats + [] == formats;
      return Ok(formats);
    }

    method Rtpmap(f: Format, v: string) returns (r: Result<Format>)
      modifies this`p, p
      ensures p == old(p) || fresh(p)
      ensures r == RtpmapOf(f, v)
    {
      hide SdpParse.Split, SdpParse.Int;
      var n := Split(v, '/', 3);
      if n < 2 {
        n := Split(v + "/90000", '/', 3);
      }
      if n < 2 {
        return Err(BadFormat);
      }
      var name, channels := p[0], f.channels;
      if n == 3 {
        channels :- Int(p[2]);
      }
      var clockRate :- Int(p[1]);
      return Ok(f.(name := name, channels := channels, clockRate := clockRate));
    }

    /** The first two pieces are taken out of the scratch array before a format's map is cut in it. */
    method FormatLine(m: Media, a: Attr) returns (r: Result<Media>)
      modifies this`p, p
      ensures p == old(p) || fresh(p)
      ensures r == FormatAttribute(m, a)
    {
      hide SdpParse.Split, SdpParse.Int, RtpmapOf;
      var n := Split(a.value, ' ', 2);
      if n != 2 {
        return Err(BadFormat);
      }
      var pt :- Int(p[0]);
      var i, v := FormatIndex(m.formats, pt), p[1];
      if i == |m.formats| {
        return Ok(m);
      }
      var f := m.formats[i];
      if a.name == "rtpmap" {
        f :- Rtpmap(f, v);
      } else if a.name == "rtcp-fb" {
        f := f.(feedback := f.feedback + [v]);
      } else if a.name == "fmtp" {
        f := f.(params := f.params + [v]);
      }
      return Ok(m.(formats := m.formats[i := f]));
    }

    method MediaLine(m: Media, f: char, v: string) returns (r: Result<Media>)
      modifies this`p, p
      ensures p == old(p) || fresh(p)
      ensures r == SdpParse.MediaField(m, f, v)
    {
      hide ProtoOf, ConnectionOf, BandwidthOf, KeyOf, AttrOf, FormatAttribute, IsMode, IsFormatAttribute;
      match f
      case 'm' =>
        r := Proto(m, v);
      case 'i' =>
        r := Ok(m.(information := v));
      case 'c' =>
        var c :- Connection(v);
        r := Ok(m.(connection := m.connection + [c]));
      case 'b' =>
        var b :- Bandwidth(m.bandwidth, v);
        r := Ok(m.(bandwidth := b));
      case 'k' =>
        var k := Key(v);
        r := Ok(m.(key := m.key + [k]));
      case 'a' =>
        var a := Attr(v);
        if IsMode(a.name) {
          r := Ok(m.(mode := a.name));
        } else if IsFormatAttribute(a.name) {
          r := FormatLine(m, a);
        } else {
          r := Ok(m.(attributes := m.attributes + [a]));
        }
      case 'y' =>
        r := Ok(m.(ssrc := v));
      case 'f' =>
        r := Ok(m.(description := v));
      case _ =>
        r := Err(UnexpectedField);
    }

    // -------------------------------------------------------------- session

    method SessionLine(s: Session, f: char, v: string) returns (r: Result<Session>)
      modifies this`p, p
      ensures p == old(p) || fresh(p)
      ensures r == SessionField(s, f, v)
    {
      hide SdpParse.Int, OriginOf, ConnectionOf, BandwidthOf, ZonesOf, KeyOf, AttrOf, TimingOf, RepeatOf, IsMode;
      match f
      case 'v' =>
        var n :- Int(v);
        r := Ok(s.(version := n));
      case 'o' =>
        if s.origin.Some? {
          return Err(UnexpectedField);
        }
        var o :- Origin(v);
        r := Ok(s.(origin := Some(o)));
      case 's' =>
        r := Ok(s.(name := v));
      case 'i' =>
        r := Ok(s.(information := v));
      case 'u' =>
        r := Ok(s.(uri := v));
      case 'e' =>
        r := Ok(s.(email := s.email + [v]));
      case 'p' =>
        r := Ok(s.(phone := s.phone + [v]));
      case 'c' =>
        if s.connection.Some? {
          return Err(UnexpectedField);
        }
        var c :- Connection(v);
        r := Ok(s.(connection := Some(c)));
      case 'b' =>
        var b :- Bandwidth(s.bandwidth, v);
        r := Ok(s.(bandwidth := b));
      case 'z' =>
        var z :- TimeZones(v);
        r := Ok(s.(timeZone := z));
      case 'k' =>
        var k := Key(v);
        r := Ok(s.(key := s.key + [k]));
      case 'a' =>
        var a := Attr(v);
        r := Ok(if IsMode(a.name) then s.(mode := a.name) else s.(attributes := s.attributes + [a]));
      case 't' =>
        var t :- Timing(v);
        r := Ok(s.(timing := Some(t)));
      case 'r' =>
        var t :- Repeat(v);
        r := Ok(s.(repeat := s.repeat + [t]));
      case _ =>
        r := Err(UnexpectedField);
    }

    // -------------------------------------------------------------- lines

    method ReadLine() returns (line: Option<string>)
      modifies this`s
      ensures old(s) == "" ==> line == None && s == ""
      ensures old(s) != "" ==> line == Some(SdpParse.ReadLine(old(s)).0) && s == SdpParse.ReadLine(old(s)).1
    {
      if s == "" {
        return None;
      }
      var text := s;
      var i := 0;
      while i < |text|
        invariant i <= |text| && s == text && forall k :: 0 <= k < i ==> text[k] != '\n'
      {
        if text[i] == '\n' {
          FirstAt(text, '\n', i);
          s := text[i + 1..];
          var n := i;
          while n > 0 && text[n - 1] == '\r'
            invariant n <= i && s == text[i + 1..] && TrimReturns(text[..n]) == TrimReturns(text[..i])
          {
            assert text[..n][..n - 1] == text[..n - 1];
            n := n - 1;
          }
          return Some(text[..n]);
        }
        i := i + 1;
      }
      FirstAt(text, '\n', |text|);
      s := "";
      return Some(text);
    }

    /** Reads the whole text, line by line. */
    method Decode() returns (r: Decoded)
      modifies this, p
      ensures r == SdpParse.Decode(old(s))
    {
      hide SdpParse.MediaField, SessionField, SdpParse.ReadLine;
      var line: nat := 1;
      var sess := NO_SESSION;
      while true
        invariant p == old(p) || fresh(p)
        invariant DecodeFrom(s, sess, line) == SdpParse.Decode(old(s))
        decreases |s|
      {
        ghost var text := s;
        var next := ReadLine();
        if next == None {
          return if sess.origin.Some? then Done(sess) else Failed(Eof);
        }
        var t := next.value;
        if t == "" && sess.origin.Some? {
          return Done(sess);
        }
        if |t| < 2 || t[1] != '=' {
          return Failed(AtLine(BadFormat, line, t));
        }
        var f, v := t[0], t[2..];
        var result: Result<Session>;
        if f == 'm' {
          var m := MediaLine(NO_MEDIA, f, v);
          result := if m.Err? then Err(m.kind) else Ok(sess.(media := sess.media + [m.value]));
        } else if sess.media == [] {
          result := SessionLine(sess, f, v);
        } else {
          var last := |sess.media| - 1;
          var m := MediaLine(sess.media[last], f, v);
          result := if m.Err? then Err(m.kind) else Ok(sess.(media := sess.media[last := m.value]));
        }
        assert result == Field(sess, f, v);
        if result.Err? {
          return Failed(AtLine(result.kind, line, t));
        }
        sess := result.value;
        line := line + 1;
      }
    }
  }

  lemma FirstAt(s: string, c: char, k: nat)
    requires k <= |s| && (forall i :: 0 <= i < k ==> s[i] != c) && (k < |s| ==> s[k] == c)
    ensures IndexOf(s, c) == k
  {
  }

  function FormatsOnto(done: seq<Format>, rest: Result<seq<Format>>): Result<seq<Format>>
  {
    if rest.Err? then rest else Ok(done + rest.value)
  }

  lemma PayloadsUnfold(done: seq<Format>, q: seq<string>)
    requires |q| > 0
    ensures q[0] == "*" ==> PayloadsOf(q) == PayloadsOf(q[1..])
    ensures q[0] != "*" && SdpParse.Int(q[0]).Err? ==> PayloadsOf(q) == Err(SdpParse.Int(q[0]).kind)
    ensures q[0] != "*" && SdpParse.Int(q[0]).Ok? ==>
              FormatsOnto(done, PayloadsOf(q)) == FormatsOnto(done + [Bare(SdpParse.Int(q[0]).value)], PayloadsOf(q[1..]))
  {
    hide SdpParse.Int;
    if q[0] != "*" && SdpParse.Int(q[0]).Ok? && PayloadsOf(q[1..]).Ok? {
      var f, rest := Bare(SdpParse.Int(q[0]).value), PayloadsOf(q[1..]).value;
      assert done + ([f] + rest) == done + [f] + rest;
    }
  }

  function ZonesOnto(done: seq<TimeZone>, rest: Result<seq<TimeZone>>): Result<seq<TimeZone>>
  {
    if rest.Err? then rest else Ok(done + rest.value)
  }

  lemma ZonesUnfold(done: seq<TimeZone>, q: seq<string>)
    requires |q| > 1
    ensures TimeOf(q[0]).Err? ==> ZonesFrom(q) == Err(TimeOf(q[0]).kind)
    ensures TimeOf(q[0]).Ok? && DurationOf(q[1]).Err? ==> ZonesFrom(q) == Err(DurationOf(q[1]).kind)
    ensures TimeOf(q[0]).Ok? && DurationOf(q[1]).Ok? ==>
              ZonesOnto(done, ZonesFrom(q)) == ZonesOnto(done + [TimeZone(TimeOf(q[0]).value, DurationOf(q[1]).value)], ZonesFrom(q[2..]))
  {
    hide TimeOf, DurationOf;
    if TimeOf(q[0]).Ok? && DurationOf(q[1]).Ok? && ZonesFrom(q[2..]).Ok? {
      var z, rest := TimeZone(TimeOf(q[0]).value, DurationOf(q[1]).value), ZonesFrom(q[2..]).value;
      assert done + ([z] + rest) == done + [z] + rest;
    }
  }

  function OffsetsOnto(done: seq<Duration>, rest: Result<seq<Duration>>): Result<seq<Duration>>
  {
    if rest.Err? then rest else Ok(done + rest.value)
  }

  lemma OffsetsUnfold(done: seq<Duration>, q: seq<string>)
    requires |q| > 0
    ensures DurationOf(q[0]).Err? ==> OffsetsOf(q) == Err(DurationOf(q[0]).kind)
    ensures DurationOf(q[0]).Ok? ==> OffsetsOnto(done, OffsetsOf(q)) == OffsetsOnto(done + [DurationOf(q[0]).value], OffsetsOf(q[1..]))
  {
    hide DurationOf;
    if DurationOf(q[0]).Ok? && OffsetsOf(q[1..]).Ok? {
      var d, rest := DurationOf(q[0]).value, OffsetsOf(q[1..]).value;
      assert done + ([d] + rest) == done + [d] + rest;
    }
  }

  lemma CutAt(s: string, sep: char, n: nat, k: nat)
    requires n >= 2 && k < |s| && s[k] == sep && forall j :: 0 <= j < k ==> s[j] != sep
    ensures SdpParse.Split(s, sep, n) == [s[..k]] + SdpParse.Split(s[k + 1..], sep, n - 1)
  {
  }

  lemma NoCut(s: string, sep: char, n: nat)
    requires n >= 1 && (n == 1 || Free(s, sep))
    ensures SdpParse.Split(s, sep, n) == [s]
  {
  }
}
