/**
 The encoder as the program runs it: a byte buffer that grows, a write position, and a flag that says
 whether a line is open. `Holds(ls)` ties the written part of the buffer to a list of lines.
 */
module SdpEncoder {
  import opened Text
  import opened Sdp

  /** Lines joined by CR LF, the last one still open. */
  function Written(ls: seq<Line>): string
  {
    if ls == [] then ""
    else Written(ls[..|ls| - 1]) + (if |ls| == 1 then "" else "\r\n") + LineText(ls[|ls| - 1])
  }

  lemma WrittenSnoc(ls: seq<Line>, l: Line)
    ensures Written(ls + [l]) == Written(ls) + (if ls == [] then "" else "\r\n") + LineText(l)
  {
    assert (ls + [l])[..|ls|] == ls;
  }

  /** The open text, closed by one more line end, is the rendered text. */
  lemma {:induction false} WrittenIsRendered(ls: seq<Line>)
    requires ls != []
    ensures Written(ls) + "\r\n" == Render(ls)
    decreases |ls|
  {
    var n := |ls| - 1;
    RenderSnoc(ls[..n], ls[n]);
    assert ls[..n] + [ls[n]] == ls;
    if n > 0 {
      WrittenIsRendered(ls[..n]);
    }
  }

  lemma {:induction false} RenderSnoc(ls: seq<Line>, l: Line)
    ensures Render(ls + [l]) == Render(ls) + (LineText(l) + "\r\n")
  {
    if ls == [] {
      assert [] + [l] == [l] && [l][1..] == [];
    } else {
      RenderSnoc(ls[1..], l);
      assert (ls + [l])[1..] == ls[1..] + [l];
      var first := LineText(ls[0]) + "\r\n";
      assert first + (Render(ls[1..]) + (LineText(l) + "\r\n")) == first + Render(ls[1..]) + (LineText(l) + "\r\n");
    }
  }

  class Encoder {
    var buf: array<char>
    var pos: nat
    var newline: bool

    constructor ()
      ensures Valid() && Contents() == "" && !newline && fresh(buf)
    {
      buf := new char[0];
      pos := 0;
      newline := false;
    }

    ghost predicate Valid()
      reads this
    {
      pos <= buf.Length
    }

    ghost function Contents(): string
      requires Valid()
      reads this, buf
    {
      buf[..pos]
    }

    /** The written bytes are exactly these lines. */
    ghost predicate Holds(ls: seq<Line>)
      reads this, buf
    {
      Valid() && Contents() == Written(ls) && (newline <==> ls != [])
    }

    // -------------------------------------------------------------- the buffer

    /** Replaces the buffer by a longer one; what was written is kept. */
    method Grow(p: nat)
      requires Valid() && buf.Length < p
      modifies this`buf
      ensures Valid() && fresh(buf) && buf.Length >= p
      ensures buf[..pos] == old(buf[..pos])
    {
      var size := p;
      if size < 1024 {
        size := 1024;
      } else if size < 2 * buf.Length {
        size := 2 * buf.Length;
      }
      var b := new char[size];
      for i := 0 to pos
        invariant buf == old(buf) && fresh(b)
        invariant forall k :: 0 <= k < i ==> b[k] == buf[k]
      {
        b[i] := buf[i];
      }
      buf := b;
    }

    /** Reserves n bytes and returns where they start. */
    method Next(n: nat) returns (start: nat)
      requires Valid()
      modifies this`buf, this`pos
      ensures Valid() && start == old(pos) && pos == start + n
      ensures buf == old(buf) || fresh(buf)
      ensures buf[..start] == old(buf[..pos])
    {
      var p := pos + n;
      if buf.Length < p {
        Grow(p);
      }
      start := pos;
      pos := p;
    }

    /** copy(b, v) into reserved space. */
    method Fill(start: nat, v: string)
      requires Valid() && start + |v| <= pos
      modifies buf
      ensures buf[..start] == old(buf[..start]) && buf[start..start + |v|] == v
      ensures buf[start + |v|..] == old(buf[start + |v|..])
    {
      for i := 0 to |v|
        invariant buf[..start] == old(buf[..start])
        invariant buf[start..start + i] == v[..i]
        invariant buf[start + |v|..] == old(buf[start + |v|..])
      {
        buf[start + i] := v[i];
        assert v[..i + 1] == v[..i] + [v[i]];
      }
      assert v[..|v|] == v;
    }

    /** Fills reserved space from p on and returns the end of what is filled. */
    method Append(p: nat, v: string) returns (q: nat)
      requires Valid() && p + |v| <= pos
      modifies buf
      ensures q == p + |v| && buf[..q] == old(buf[..p]) + v
    {
      q := p + |v|;
      Fill(p, v);
      assert buf[..q] == buf[..p] + buf[p..q];
    }

    /** Writes bytes at the end. */
    method Put(v: string)
      requires Valid()
      modifies this`buf, this`pos, buf
      ensures Valid() && (buf == old(buf) || fresh(buf))
      ensures Contents() == old(Contents()) + v
    {
      var start := Next(|v|);
      Fill(start, v);
      assert buf[..pos] == buf[..start] + buf[start..pos];
    }

    // -------------------------------------------------------------- primitives

    method Str(v: string)
      requires Valid()
      modifies this`buf, this`pos, buf
      ensures Valid() && (buf == old(buf) || fresh(buf))
      ensures Contents() == old(Contents()) + Dash(v)
    {
      if v == "" {
        Char('-');
      } else {
        Put(v);
      }
    }

    method Char(c: char)
      requires Valid()
      modifies this`buf, this`pos, buf
      ensures Valid() && (buf == old(buf) || fresh(buf))
      ensures Contents() == old(Contents()) + [c]
    {
      var start := Next(1);
      buf[start] := c;
      assert buf[..pos] == buf[..start] + [c];
    }

    /** Reserves twenty bytes, writes the digits at the front and gives the rest back. */
    method Int(n: int64)
      requires Valid()
      modifies this`buf, this`pos, buf
      ensures Valid() && (buf == old(buf) || fresh(buf))
      ensures Contents() == old(Contents()) + Show(n)
    {
      var start := Next(20);
      ShowInt64Length(n);
      var digits := Show(n);
      Fill(start, digits);
      pos := pos + |digits| - 20;
      assert buf[..pos] == buf[..start] + buf[start..pos];
    }

    /** Space-separated fields written into one reservation. */
    method Fields(a: string, b: string, c: string)
      requires Valid() && a != "" && b != "" && c != ""
      modifies this`buf, this`pos, buf
      ensures Valid() && (buf == old(buf) || fresh(buf))
      ensures Contents() == old(Contents()) + JoinAll([a, b, c], ' ')
    {
      var p := Next(|a| + |b| + |c| + 2);
      ghost var before := buf[..p];
      p := Append(p, a);
      p := Append(p, [' ']);
      p := Append(p, b);
      p := Append(p, [' ']);
      p := Append(p, c);
      JoinThree(a, b, c);
      assert buf[..pos] == before + a + [' '] + b + [' '] + c;
      assert before + a + [' '] + b + [' '] + c == before + (a + [' '] + b + [' '] + c);
    }

    /** Opens a line: closes the one before, if any, and writes the kind. */
    method Add(kind: char, ghost ls: seq<Line>)
      requires Holds(ls)
      modifies this, buf
      ensures Holds(ls + [Line(kind, "")]) && (buf == old(buf) || fresh(buf))
    {
      WrittenSnoc(ls, Line(kind, ""));
      if newline {
        Put(['\r', '\n', kind, '=']);
        assert ['\r', '\n', kind, '='] == "\r\n" + [kind, '='];
        assert Written(ls) + "\r\n" + [kind, '='] == Written(ls) + ("\r\n" + [kind, '=']);
      } else {
        Put([kind, '=']);
        newline := true;
      }
      assert LineText(Line(kind, "")) == [kind, '='];
    }

    // -------------------------------------------------------------- values

    method Time(t: Time)
      requires Valid()
      modifies this`buf, this`pos, buf
      ensures Valid() && (buf == old(buf) || fresh(buf))
      ensures Contents() == old(Contents()) + TimeText(t)
    {
      if t == ZERO_TIME {
        Char('0');
      } else {
        Int(t.sec);
      }
    }

    method Duration(d: Duration)
      requires Valid()
      modifies this`buf, this`pos, buf
      ensures Valid() && (buf == old(buf) || fresh(buf))
      ensures Contents() == old(Contents()) + DurationText(d)
    {
      hide Contents, Show, JoinAll;
      var v := Seconds(d);
      ghost var before := Contents();
      if v == 0 {
        Char('0');
      } else if v % 86400 == 0 {
        Int(v / 86400);
        Char('d');
        assert before + Show(v / 86400) + "d" == before + (Show(v / 86400) + "d");
      } else if v % 3600 == 0 {
        Int(v / 3600);
        Char('h');
        assert before + Show(v / 3600) + "h" == before + (Show(v / 3600) + "h");
      } else if v % 60 == 0 {
        Int(v / 60);
        Char('m');
        assert before + Show(v / 60) + "m" == before + (Show(v / 60) + "m");
      } else {
        Int(v);
      }
    }

    method Origin(o: Origin)
      requires Valid()
      modifies this`buf, this`pos, buf
      ensures Valid() && (buf == old(buf) || fresh(buf))
      ensures Contents() == old(Contents()) + OriginText(o)
    {
      hide Contents, Show, JoinAll;
      ghost var before := Contents();
      Str(o.username);
      Char(' ');
      Int(o.sessionId);
      Char(' ');
      Int(o.sessionVersion);
      Char(' ');
      var network, typ, address := Default(o.network, "IN"), Default(o.typ, "IP4"), Default(o.address, "127.0.0.1");
      Fields(network, typ, address);
      JoinPrefix(Dash(o.username), Show(o.sessionId), Show(o.sessionVersion), [network, typ, address]);
      Nest(before, Dash(o.username), Show(o.sessionId), Show(o.sessionVersion), JoinAll([network, typ, address], ' '));
    }

    /** A slash and a number, given that the parts so far are at the end of the buffer. */
    method AnotherCount(n: int64, ghost before: string, ghost parts: seq<string>)
      requires Valid() && parts != [] && Contents() == before + JoinAll(parts, '/')
      modifies this`buf, this`pos, buf
      ensures Valid() && (buf == old(buf) || fresh(buf))
      ensures Contents() == before + JoinAll(parts + [Show(n)], '/')
    {
      hide Contents, Show, JoinAll;
      Char('/');
      Int(n);
      JoinAllSnoc(parts, '/', Show(n));
      assert before + JoinAll(parts, '/') + ['/'] + Show(n) == before + (JoinAll(parts, '/') + ['/'] + Show(n));
    }

    method Connection(c: Connection)
      requires Valid()
      modifies this`buf, this`pos, buf
      ensures Valid() && (buf == old(buf) || fresh(buf))
      ensures Contents() == old(Contents()) + ConnectionText(c)
    {
      hide Contents, Show, JoinAll;
      ghost var before := Contents();
      var network, typ, address := Default(c.network, "IN"), Default(c.typ, "IP4"), Default(c.address, "127.0.0.1");
      hide Default;
      assert network != "" && typ != "" && address != "" by { DefaultsNotEmpty(c); }
      Fields(network, typ, address);
      ghost var parts := [address];
      ghost var head := before + (network + [' '] + typ + [' ']);
      AddressStarts(before, network, typ, address);
      if c.ttl > 0 {
        AnotherCount(c.ttl, head, parts);
        parts := parts + [Show(c.ttl)];
      }
      if c.addressNum > 1 {
        AnotherCount(c.addressNum, head, parts);
        parts := parts + [Show(c.addressNum)];
      }
      assert parts == AddressPieces(c);
      AddressEnds(before, network, typ, JoinAll(parts, '/'));
    }

    /** A name, and a value after a colon when there is one. */
    method Pair(name: string, value: string)
      requires Valid()
      modifies this`buf, this`pos, buf
      ensures Valid() && (buf == old(buf) || fresh(buf))
      ensures Contents() == old(Contents()) + PairText(name, value)
    {
      hide Contents, Show, JoinAll;
      ghost var before := Contents();
      Str(name);
      if value != "" {
        Char(':');
        Str(value);
        JoinTwo(Dash(name), ':', value);
        assert before + Dash(name) + [':'] + value == before + (Dash(name) + [':'] + value);
      }
    }

    method Timing(t: Option<Timing>)
      requires Valid()
      modifies this`buf, this`pos, buf
      ensures Valid() && (buf == old(buf) || fresh(buf))
      ensures Contents() == old(Contents()) + TimingText(t)
    {
      hide Contents, Show, JoinAll;
      ghost var before := Contents();
      match t
      case None =>
        Put("0 0");
      case Some(t) =>
        Time(t.start);
        Char(' ');
        Time(t.stop);
        JoinTwo(TimeText(t.start), ' ', TimeText(t.stop));
        assert before + TimeText(t.start) + [' '] + TimeText(t.stop) == before + (TimeText(t.start) + [' '] + TimeText(t.stop));
    }

    /** Writes a separator and one more part, given that the parts so far are at the end of the buffer. */
    method AnotherDuration(d: Duration, ghost before: string, ghost parts: seq<string>)
      requires Valid() && parts != [] && Contents() == before + JoinAll(parts, ' ')
      modifies this`buf, this`pos, buf
      ensures Valid() && (buf == old(buf) || fresh(buf))
      ensures Contents() == before + JoinAll(parts + [DurationText(d)], ' ')
    {
      hide Contents, Show, JoinAll;
      Char(' ');
      Duration(d);
      JoinAllSnoc(parts, ' ', DurationText(d));
      assert before + JoinAll(parts, ' ') + [' '] + DurationText(d) == before + (JoinAll(parts, ' ') + [' '] + DurationText(d));
    }

    method AnotherTime(t: Time, first: bool, ghost before: string, ghost parts: seq<string>)
      requires first <==> parts == []
      requires Valid() && Contents() == before + (if parts == [] then "" else JoinAll(parts, ' '))
      modifies this`buf, this`pos, buf
      ensures Valid() && (buf == old(buf) || fresh(buf))
      ensures Contents() == before + JoinAll(parts + [TimeText(t)], ' ')
    {
      hide Contents, Show, JoinAll;
      if parts == [] {
        assert before + "" == before && parts + [TimeText(t)] == [TimeText(t)];
        JoinOne(TimeText(t), ' ');
      } else {
        JoinAllSnoc(parts, ' ', TimeText(t));
        assert before + JoinAll(parts, ' ') + [' '] + TimeText(t) == before + (JoinAll(parts, ' ') + [' '] + TimeText(t));
      }
      if !first {
        Char(' ');
      }
      Time(t);
    }

    method Zones(zs: seq<TimeZone>)
      requires Valid() && zs != []
      modifies this`buf, this`pos, buf
      ensures Valid() && (buf == old(buf) || fresh(buf))
      ensures Contents() == old(Contents()) + JoinAll(ZonePieces(zs), ' ')
    {
      hide Contents, Show, JoinAll;
      ghost var before := Contents();
      ghost var parts: seq<string> := [];
      assert before + "" == before;
      for i := 0 to |zs|
        invariant Valid() && (buf == old(buf) || fresh(buf))
        invariant parts == ZonePieces(zs[..i])
        invariant Contents() == before + (if parts == [] then "" else JoinAll(parts, ' '))
      {
        AnotherTime(zs[i].time, i == 0, before, parts);
        parts := parts + [TimeText(zs[i].time)];
        AnotherDuration(zs[i].offset, before, parts);
        parts := parts + [DurationText(zs[i].offset)];
        ZonePiecesSnoc(zs[..i], zs[i]);
        assert zs[..i + 1] == zs[..i] + [zs[i]];
        assert ZonePieces(zs[..i]) + [TimeText(zs[i].time)] + [DurationText(zs[i].offset)]
            == ZonePieces(zs[..i]) + [TimeText(zs[i].time), DurationText(zs[i].offset)];
      }
      assert zs[..|zs|] == zs;
    }

    method Repeat(r: Repeat)
      requires Valid()
      modifies this`buf, this`pos, buf
      ensures Valid() && (buf == old(buf) || fresh(buf))
      ensures Contents() == old(Contents()) + RepeatText(r)
    {
      hide Contents, Show, JoinAll;
      ghost var before := Contents();
      Duration(r.interval);
      ghost var parts := [DurationText(r.interval)];
      JoinOne(DurationText(r.interval), ' ');
      AnotherDuration(r.duration, before, parts);
      parts := parts + [DurationText(r.duration)];
      ghost var first := [DurationText(r.interval), DurationText(r.duration)];
      assert parts == first + OffsetPieces(r.offsets[..0]);
      for i := 0 to |r.offsets|
        invariant Valid() && (buf == old(buf) || fresh(buf))
        invariant parts == first + OffsetPieces(r.offsets[..i])
        invariant Contents() == before + JoinAll(parts, ' ')
      {
        AnotherDuration(r.offsets[i], before, parts);
        parts := parts + [DurationText(r.offsets[i])];
        OffsetPiecesSnoc(r.offsets[..i], r.offsets[i]);
        assert r.offsets[..i + 1] == r.offsets[..i] + [r.offsets[i]];
      }
      assert r.offsets[..|r.offsets|] == r.offsets;
    }

    method Payloads(fs: seq<Format>, ghost before: string, ghost parts: seq<string>)
      requires Valid() && parts != [] && Contents() == before + JoinAll(parts, ' ')
      modifies this`buf, this`pos, buf
      ensures Valid() && (buf == old(buf) || fresh(buf))
      ensures Contents() == before + JoinAll(parts + (if fs == [] then ["*"] else PayloadPieces(fs)), ' ')
    {
      hide Contents, Show, JoinAll;
      ghost var more: seq<string> := [];
      assert parts + more == parts;
      for i := 0 to |fs|
        invariant Valid() && (buf == old(buf) || fresh(buf))
        invariant more == PayloadPieces(fs[..i])
        invariant Contents() == before + JoinAll(parts + more, ' ')
      {
        Char(' ');
        Int(fs[i].payload);
        JoinAllSnoc(parts + more, ' ', Show(fs[i].payload));
        PayloadPiecesSnoc(fs[..i], fs[i]);
        assert fs[..i + 1] == fs[..i] + [fs[i]];
        assert before + JoinAll(parts + more, ' ') + [' '] + Show(fs[i].payload)
            == before + (JoinAll(parts + more, ' ') + [' '] + Show(fs[i].payload));
        more := more + [Show(fs[i].payload)];
        assert parts + PayloadPieces(fs[..i]) + [Show(fs[i].payload)] == parts + more;
      }
      assert fs[..|fs|] == fs;
      if |fs| == 0 {
        Char(' ');
        Char('*');
        JoinAllSnoc(parts, ' ', "*");
        assert before + JoinAll(parts, ' ') + [' '] + "*" == before + (JoinAll(parts, ' ') + [' '] + "*");
      }
    }

    method Port(m: Media, ghost before: string)
      requires Valid() && Contents() == before
      modifies this`buf, this`pos, buf
      ensures Valid() && (buf == old(buf) || fresh(buf))
      ensures Contents() == before + PortText(m)
    {
      hide Contents, Show, JoinAll;
      Int(m.port);
      JoinOne(Show(m.port), '/');
      assert [Show(m.port)] + [] == [Show(m.port)];
      if m.portNum > 0 {
        AnotherCount(m.portNum, before, [Show(m.port)]);
      }
    }

    method Proto(m: Media)
      requires Valid()
      modifies this`buf, this`pos, buf
      ensures Valid() && (buf == old(buf) || fresh(buf))
      ensures Contents() == old(Contents()) + MediaText(m)
    {
      hide Contents, Show, JoinAll, PortText, Dash;
      ghost var before := Contents();
      Str(m.typ);
      Char(' ');
      Port(m, before + Dash(m.typ) + [' ']);
      Char(' ');
      Str(m.proto);
      ghost var parts := [Dash(m.typ), PortText(m), Dash(m.proto)];
      HeadOfMedia(before, Dash(m.typ), PortText(m), Dash(m.proto));
      Payloads(m.formats, before, parts);
      ghost var list := if m.formats == [] then ["*"] else PayloadPieces(m.formats);
      JoinNested(parts, list);
      JoinOne("*", ' ');
      assert FormatList(m.formats) == JoinAll(list, ' ');
      assert parts + [FormatList(m.formats)] == [Dash(m.typ), PortText(m), Dash(m.proto), FormatList(m.formats)];
    }

    // -------------------------------------------------------------- lines

    method StrLine(kind: char, v: string, ghost ls: seq<Line>)
      requires Holds(ls)
      modifies this, buf
      ensures Holds(ls + [Line(kind, Dash(v))]) && (buf == old(buf) || fresh(buf))
    {
      hide Contents, Written, Show, JoinAll;
      Add(kind, ls);
      Str(v);
      LineGrows(ls, kind, Dash(v));
    }

    method OptionalLine(kind: char, v: string, ghost ls: seq<Line>)
      requires Holds(ls)
      modifies this, buf
      ensures Holds(ls + Optional(kind, v)) && (buf == old(buf) || fresh(buf))
    {
      hide Contents, Written, LineText;
      assert ls + [] == ls;
      if v != "" {
        StrLine(kind, v, ls);
      }
    }

    method StrLines(kind: char, vs: seq<string>, ghost ls: seq<Line>)
      requires Holds(ls)
      modifies this, buf
      ensures Holds(ls + Strings(kind, vs)) && (buf == old(buf) || fresh(buf))
    {
      hide Holds;
      assert vs[..0] == [] && ls + [] == ls;
      for i := 0 to |vs|
        invariant Holds(ls + Strings(kind, vs[..i])) && (buf == old(buf) || fresh(buf))
      {
        StrLine(kind, vs[i], ls + Strings(kind, vs[..i]));
        StringsSnoc(kind, vs[..i], vs[i]);
        assert vs[..i + 1] == vs[..i] + [vs[i]];
        assert ls + Strings(kind, vs[..i]) + [Line(kind, Dash(vs[i]))] == ls + (Strings(kind, vs[..i]) + [Line(kind, Dash(vs[i]))]);
      }
      assert vs[..|vs|] == vs;
    }

    method IntLine(kind: char, n: int64, ghost ls: seq<Line>)
      requires Holds(ls)
      modifies this, buf
      ensures Holds(ls + [Line(kind, Show(n))]) && (buf == old(buf) || fresh(buf))
    {
      hide Contents, Written, Show, JoinAll;
      Add(kind, ls);
      Int(n);
      LineGrows(ls, kind, Show(n));
    }

    method OriginLineOf(o: Option<Origin>, ghost ls: seq<Line>)
      requires Holds(ls)
      modifies this, buf
      ensures Holds(ls + OriginLine(o)) && (buf == old(buf) || fresh(buf))
    {
      hide Contents, Written, Show, JoinAll;
      match o
      case None =>
        assert ls + [] == ls;
      case Some(o) =>
        Add('o', ls);
        Origin(o);
        LineGrows(ls, 'o', OriginText(o));
    }

    method ConnectionLineOf(c: Connection, ghost ls: seq<Line>)
      requires Holds(ls)
      modifies this, buf
      ensures Holds(ls + [Line('c', ConnectionText(c))]) && (buf == old(buf) || fresh(buf))
    {
      hide Contents, Written, Show, JoinAll;
      Add('c', ls);
      Connection(c);
      LineGrows(ls, 'c', ConnectionText(c));
    }

    method ConnectionLinesOf(cs: seq<Connection>, ghost ls: seq<Line>)
      requires Holds(ls)
      modifies this, buf
      ensures Holds(ls + ConnectionLines(cs)) && (buf == old(buf) || fresh(buf))
    {
      hide Holds;
      assert cs[..0] == [] && ls + [] == ls;
      for i := 0 to |cs|
        invariant Holds(ls + ConnectionLines(cs[..i])) && (buf == old(buf) || fresh(buf))
      {
        ghost var done := ConnectionLines(cs[..i]);
        ConnectionLineOf(cs[i], ls + done);
        ConnectionLinesSnoc(cs[..i], cs[i]);
        assert cs[..i + 1] == cs[..i] + [cs[i]];
        assert ls + done + [Line('c', ConnectionText(cs[i]))] == ls + (done + [Line('c', ConnectionText(cs[i]))]);
      }
      assert cs[..|cs|] == cs;
    }

    /** The map is walked in an order the program does not choose. */
    method BandwidthLinesOf(b: Bandwidth, ghost ls: seq<Line>) returns (ghost order: seq<string>)
      requires Holds(ls)
      modifies this, buf
      ensures Walks(order, b) && (forall k :: k in order ==> k in b)
      ensures Holds(ls + BandwidthLines(b, order)) && (buf == old(buf) || fresh(buf))
    {
      hide Holds;
      order := [];
      var rest := b.Keys;
      assert ls + [] == ls;
      while rest != {}
        invariant rest <= b.Keys
        invariant forall k :: k in order <==> k in b && k !in rest
        invariant forall i, j :: 0 <= i < j < |order| ==> order[i] != order[j]
        invariant Holds(ls + BandwidthLines(b, order)) && (buf == old(buf) || fresh(buf))
        decreases rest
      {
        var k :| k in rest;
        ghost var done := BandwidthLines(b, order);
        BandwidthLineOf(k, b[k], ls + done);
        BandwidthLinesSnoc(b, order, k);
        assert ls + done + [Line('b', JoinAll([Dash(k), Show(b[k])], ':'))] == ls + (done + [Line('b', JoinAll([Dash(k), Show(b[k])], ':'))]);
        rest := rest - {k};
        order := order + [k];
      }
    }

    method ZoneLineOf(zs: seq<TimeZone>, ghost ls: seq<Line>)
      requires Holds(ls)
      modifies this, buf
      ensures Holds(ls + ZoneLine(zs)) && (buf == old(buf) || fresh(buf))
    {
      hide Contents, Written, Show, JoinAll;
      assert ls + [] == ls;
      if |zs| > 0 {
        Add('z', ls);
        Zones(zs);
        LineGrows(ls, 'z', JoinAll(ZonePieces(zs), ' '));
      }
    }

    method PairLine(kind: char, name: string, value: string, ghost ls: seq<Line>)
      requires Holds(ls)
      modifies this, buf
      ensures Holds(ls + [Line(kind, PairText(name, value))]) && (buf == old(buf) || fresh(buf))
    {
      hide Contents, Written, Show, JoinAll;
      Add(kind, ls);
      Pair(name, value);
      LineGrows(ls, kind, PairText(name, value));
    }

    method KeyLinesOf(ks: seq<Key>, ghost ls: seq<Line>)
      requires Holds(ls)
      modifies this, buf
      ensures Holds(ls + KeyLines(ks)) && (buf == old(buf) || fresh(buf))
    {
      hide Holds;
      assert ks[..0] == [] && ls + [] == ls;
      for i := 0 to |ks|
        invariant Holds(ls + KeyLines(ks[..i])) && (buf == old(buf) || fresh(buf))
      {
        ghost var done, l := KeyLines(ks[..i]), Line('k', PairText(ks[i].kind, ks[i].value));
        PairLine('k', ks[i].kind, ks[i].value, ls + done);
        KeyLinesSnoc(ks[..i], ks[i]);
        assert ks[..i + 1] == ks[..i] + [ks[i]];
        assert ls + done + [l] == ls + (done + [l]);
      }
      assert ks[..|ks|] == ks;
    }

    method AttrLinesOf(xs: seq<Attr>, ghost ls: seq<Line>)
      requires Holds(ls)
      modifies this, buf
      ensures Holds(ls + AttrLines(xs)) && (buf == old(buf) || fresh(buf))
    {
      hide Holds;
      assert xs[..0] == [] && ls + [] == ls;
      for i := 0 to |xs|
        invariant Holds(ls + AttrLines(xs[..i])) && (buf == old(buf) || fresh(buf))
      {
        ghost var done, l := AttrLines(xs[..i]), Line('a', PairText(xs[i].name, xs[i].value));
        PairLine('a', xs[i].name, xs[i].value, ls + done);
        AttrLinesSnoc(xs[..i], xs[i]);
        assert xs[..i + 1] == xs[..i] + [xs[i]];
        assert ls + done + [l] == ls + (done + [l]);
      }
      assert xs[..|xs|] == xs;
    }

    method TimingLine(t: Option<Timing>, ghost ls: seq<Line>)
      requires Holds(ls)
      modifies this, buf
      ensures Holds(ls + [Line('t', TimingText(t))]) && (buf == old(buf) || fresh(buf))
    {
      hide Contents, Written, Show, JoinAll;
      Add('t', ls);
      Timing(t);
      LineGrows(ls, 't', TimingText(t));
    }

    method RepeatLineOf(r: Repeat, ghost ls: seq<Line>)
      requires Holds(ls)
      modifies this, buf
      ensures Holds(ls + [Line('r', RepeatText(r))]) && (buf == old(buf) || fresh(buf))
    {
      hide Contents, Written, RepeatText;
      Add('r', ls);
      Repeat(r);
      LineGrows(ls, 'r', RepeatText(r));
    }

    method RepeatLinesOf(rs: seq<Repeat>, ghost ls: seq<Line>)
      requires Holds(ls)
      modifies this, buf
      ensures Holds(ls + RepeatLines(rs)) && (buf == old(buf) || fresh(buf))
    {
      hide Holds;
      assert rs[..0] == [] && ls + [] == ls;
      for i := 0 to |rs|
        invariant Holds(ls + RepeatLines(rs[..i])) && (buf == old(buf) || fresh(buf))
      {
        ghost var done, l := RepeatLines(rs[..i]), Line('r', RepeatText(rs[i]));
        RepeatLineOf(rs[i], ls + done);
        RepeatLinesSnoc(rs[..i], rs[i]);
        assert rs[..i + 1] == rs[..i] + [rs[i]];
        assert ls + done + [l] == ls + (done + [l]);
      }
      assert rs[..|rs|] == rs;
    }

    // -------------------------------------------------------------- formats, media, session

    /** `name:payload ` with the value still to come. */
    method PayloadHead(name: string, pt: int64, ghost ls: seq<Line>) returns (ghost before: string)
      requires Holds(ls) && name != ""
      modifies this, buf
      ensures Valid() && newline && (buf == old(buf) || fresh(buf))
      ensures before == Written(ls + [Line('a', "")]) && Contents() == before + (name + [':'] + (Show(pt) + [' ']))
    {
      hide Contents, Written, Show, JoinAll;
      Add('a', ls);
      before := Contents();
      Str(name);
      Char(':');
      Int(pt);
      Char(' ');
      assert before + name + [':'] + Show(pt) + [' '] == before + (name + [':'] + (Show(pt) + [' ']));
    }

    method PayloadLine(name: string, pt: int64, v: string, ghost ls: seq<Line>)
      requires Holds(ls) && name != ""
      modifies this, buf
      ensures Holds(ls + [Line('a', PayloadText(name, pt, Dash(v)))]) && (buf == old(buf) || fresh(buf))
    {
      hide Contents, Written, Show, JoinAll;
      ghost var before := PayloadHead(name, pt, ls);
      Str(v);
      PayloadParts(before, name, pt, Dash(v));
      LineGrows(ls, 'a', PayloadText(name, pt, Dash(v)));
    }

    method PayloadLinesOf(name: string, pt: int64, vs: seq<string>, ghost ls: seq<Line>)
      requires Holds(ls) && name != ""
      modifies this, buf
      ensures Holds(ls + PayloadLines(name, pt, vs)) && (buf == old(buf) || fresh(buf))
    {
      hide Holds;
      assert vs[..0] == [] && ls + [] == ls;
      for i := 0 to |vs|
        invariant Holds(ls + PayloadLines(name, pt, vs[..i])) && (buf == old(buf) || fresh(buf))
      {
        ghost var done, l := PayloadLines(name, pt, vs[..i]), Line('a', PayloadText(name, pt, Dash(vs[i])));
        PayloadLine(name, pt, vs[i], ls + done);
        PayloadLinesSnoc(name, pt, vs[..i], vs[i]);
        assert vs[..i + 1] == vs[..i] + [vs[i]];
        assert ls + done + [l] == ls + (done + [l]);
      }
      assert vs[..|vs|] == vs;
    }

    method RtpmapLineOf(f: Format, ghost ls: seq<Line>)
      requires Holds(ls)
      modifies this, buf
      ensures Holds(ls + RtpmapLine(f)) && (buf == old(buf) || fresh(buf))
    {
      hide Contents, Written, Show, JoinAll;
      assert ls + [] == ls;
      if f.name != "" {
        ghost var before := PayloadHead("rtpmap", f.payload, ls);
        ghost var head := Contents();
        Str(f.name);
        Char('/');
        Int(f.clockRate);
        ghost var parts := [f.name, Show(f.clockRate)];
        JoinTwo(f.name, '/', Show(f.clockRate));
        assert head + f.name + ['/'] + Show(f.clockRate) == head + JoinAll(parts, '/') by {
          assert head + f.name + ['/'] + Show(f.clockRate) == head + (f.name + ['/'] + Show(f.clockRate));
        }
        if f.channels > 0 {
          Char('/');
          Int(f.channels);
          JoinAllSnoc(parts, '/', Show(f.channels));
          assert head + JoinAll(parts, '/') + ['/'] + Show(f.channels) == head + (JoinAll(parts, '/') + ['/'] + Show(f.channels));
          parts := parts + [Show(f.channels)];
        }
        assert parts == RtpmapPieces(f);
        PayloadParts(before, "rtpmap", f.payload, JoinAll(parts, '/'));
        LineGrows(ls, 'a', PayloadText("rtpmap", f.payload, JoinAll(parts, '/')));
      }
    }

    method FormatLinesOf(f: Format, ghost ls: seq<Line>)
      requires Holds(ls)
      modifies this, buf
      ensures Holds(ls + FormatLines(f)) && (buf == old(buf) || fresh(buf))
    {
      hide Holds;
      ghost var a, b, c := RtpmapLine(f), PayloadLines("rtcp-fb", f.payload, f.feedback), PayloadLines("fmtp", f.payload, f.params);
      RtpmapLineOf(f, ls);
      PayloadLinesOf("rtcp-fb", f.payload, f.feedback, ls + a);
      PayloadLinesOf("fmtp", f.payload, f.params, ls + a + b);
      assert ls + a + b + c == ls + (a + b + c);
    }

    method FormatsLinesOf(fs: seq<Format>, ghost ls: seq<Line>)
      requires Holds(ls)
      modifies this, buf
      ensures Holds(ls + FormatsLines(fs)) && (buf == old(buf) || fresh(buf))
    {
      hide Holds, FormatLines;
      assert fs[..0] == [] && ls + [] == ls;
      for i := 0 to |fs|
        invariant Holds(ls + FormatsLines(fs[..i])) && (buf == old(buf) || fresh(buf))
      {
        ghost var done := FormatsLines(fs[..i]);
        FormatLinesOf(fs[i], ls + done);
        FormatsLinesSnoc(fs[..i], fs[i]);
        assert fs[..i + 1] == fs[..i] + [fs[i]];
        assert ls + done + FormatLines(fs[i]) == ls + (done + FormatLines(fs[i]));
      }
      assert fs[..|fs|] == fs;
    }

    method MediaLineOf(m: Media, ghost ls: seq<Line>)
      requires Holds(ls)
      modifies this, buf
      ensures Holds(ls + [Line('m', MediaText(m))]) && (buf == old(buf) || fresh(buf))
    {
      hide Contents, Written, MediaText;
      Add('m', ls);
      Proto(m);
      LineGrows(ls, 'm', MediaText(m));
    }

    method BandwidthLineOf(k: string, n: int64, ghost ls: seq<Line>)
      requires Holds(ls)
      modifies this, buf
      ensures Holds(ls + [Line('b', JoinAll([Dash(k), Show(n)], ':'))]) && (buf == old(buf) || fresh(buf))
    {
      hide Contents, Written, Show, JoinAll, Dash;
      Add('b', ls);
      ghost var before := Contents();
      Str(k);
      Char(':');
      Int(n);
      JoinTwo(Dash(k), ':', Show(n));
      assert before + Dash(k) + [':'] + Show(n) == before + (Dash(k) + [':'] + Show(n));
      LineGrows(ls, 'b', JoinAll([Dash(k), Show(n)], ':'));
    }

    method MediaOf(m: Media, ghost ls: seq<Line>) returns (ghost order: seq<string>)
      requires Holds(ls)
      modifies this, buf
      ensures Walks(order, m.bandwidth) && (forall k :: k in order ==> k in m.bandwidth)
      ensures Holds(ls + MediaLines(m, order)) && (buf == old(buf) || fresh(buf))
    {
      hide Holds;
      ghost var done := [Line('m', MediaText(m))];
      MediaLineOf(m, ls);
      OptionalLine('a', m.mode, ls + done);
      Onward(ls, done, Optional('a', m.mode));
      done := done + Optional('a', m.mode);
      OptionalLine('i', m.information, ls + done);
      Onward(ls, done, Optional('i', m.information));
      done := done + Optional('i', m.information);
      ConnectionLinesOf(m.connection, ls + done);
      Onward(ls, done, ConnectionLines(m.connection));
      done := done + ConnectionLines(m.connection);
      order := BandwidthLinesOf(m.bandwidth, ls + done);
      Onward(ls, done, BandwidthLines(m.bandwidth, order));
      done := done + BandwidthLines(m.bandwidth, order);
      KeyLinesOf(m.key, ls + done);
      Onward(ls, done, KeyLines(m.key));
      done := done + KeyLines(m.key);
      FormatsLinesOf(m.formats, ls + done);
      Onward(ls, done, FormatsLines(m.formats));
      done := done + FormatsLines(m.formats);
      AttrLinesOf(m.attributes, ls + done);
      Onward(ls, done, AttrLines(m.attributes));
      done := done + AttrLines(m.attributes);
      OptionalLine('y', m.ssrc, ls + done);
      Onward(ls, done, Optional('y', m.ssrc));
      done := done + Optional('y', m.ssrc);
      OptionalLine('f', m.description, ls + done);
      Onward(ls, done, Optional('f', m.description));
    }

    /** All media sections; the orders in which their bandwidth maps were walked are reported. */
    method MediasOf(ms: seq<Media>, ghost ls: seq<Line>) returns (ghost orders: seq<seq<string>>)
      requires Holds(ls)
      modifies this, buf
      ensures MediaWalks(orders, ms) && Holds(ls + AllMediaLines(ms, orders)) && (buf == old(buf) || fresh(buf))
    {
      hide Holds, MediaLines, Walks;
      orders := [];
      assert ms[..0] == [] && ls + [] == ls;
      for i := 0 to |ms|
        invariant MediaWalks(orders, ms[..i])
        invariant Holds(ls + AllMediaLines(ms[..i], orders)) && (buf == old(buf) || fresh(buf))
      {
        ghost var done := AllMediaLines(ms[..i], orders);
        ghost var order := MediaOf(ms[i], ls + done);
        assert ms[..i + 1] == ms[..i] + [ms[i]];
        MediaWalksSnoc(orders, ms[..i], order, ms[i]);
        AllMediaLinesSnoc(ms[..i], orders, ms[i], order);
        Onward(ls, done, MediaLines(ms[i], order));
        orders := orders + [order];
      }
      assert ms[..|ms|] == ms;
    }

    method IdentityOf(s: Session, ghost ls: seq<Line>)
      requires Holds(ls)
      modifies this, buf
      ensures Holds(ls + IdentityLines(s)) && (buf == old(buf) || fresh(buf))
    {
      hide Holds, Show, Dash, OriginLine, Optional, Strings, ConnectionLine;
      ghost var done := [Line('v', Show(s.version))];
      IntLine('v', s.version, ls);
      OriginLineOf(s.origin, ls + done);
      Onward(ls, done, OriginLine(s.origin));
      done := done + OriginLine(s.origin);
      StrLine('s', s.name, ls + done);
      Onward(ls, done, [Line('s', Dash(s.name))]);
      done := done + [Line('s', Dash(s.name))];
      OptionalLine('i', s.information, ls + done);
      Onward(ls, done, Optional('i', s.information));
      done := done + Optional('i', s.information);
      OptionalLine('u', s.uri, ls + done);
      Onward(ls, done, Optional('u', s.uri));
      done := done + Optional('u', s.uri);
      StrLines('e', s.email, ls + done);
      Onward(ls, done, Strings('e', s.email));
      done := done + Strings('e', s.email);
      StrLines('p', s.phone, ls + done);
      Onward(ls, done, Strings('p', s.phone));
      done := done + Strings('p', s.phone);
      OptionalConnection(s.connection, ls + done);
      Onward(ls, done, ConnectionLine(s.connection));
    }

    method HeaderOf(s: Session, ghost ls: seq<Line>) returns (ghost order: seq<string>)
      requires Holds(ls)
      modifies this, buf
      ensures Walks(order, s.bandwidth) && (forall k :: k in order ==> k in s.bandwidth)
      ensures Holds(ls + HeaderLines(s, order)) && (buf == old(buf) || fresh(buf))
    {
      hide Holds, IdentityLines, BandwidthLines, ZoneLine, KeyLines, AttrLines, TimingText, RepeatLines, HeaderLines, Walks, Optional;
      ghost var done := IdentityLines(s);
      IdentityOf(s, ls);
      order := BandwidthLinesOf(s.bandwidth, ls + done);
      Onward(ls, done, BandwidthLines(s.bandwidth, order));
      done := done + BandwidthLines(s.bandwidth, order);
      ZoneLineOf(s.timeZone, ls + done);
      Onward(ls, done, ZoneLine(s.timeZone));
      done := done + ZoneLine(s.timeZone);
      KeyLinesOf(s.key, ls + done);
      Onward(ls, done, KeyLines(s.key));
      done := done + KeyLines(s.key);
      OptionalLine('a', s.mode, ls + done);
      Onward(ls, done, Optional('a', s.mode));
      done := done + Optional('a', s.mode);
      AttrLinesOf(s.attributes, ls + done);
      Onward(ls, done, AttrLines(s.attributes));
      done := done + AttrLines(s.attributes);
      TimingLine(s.timing, ls + done);
      Onward(ls, done, [Line('t', TimingText(s.timing))]);
      done := done + [Line('t', TimingText(s.timing))];
      RepeatLinesOf(s.repeat, ls + done);
      Onward(ls, done, RepeatLines(s.repeat));
      HeaderIs(s, order);
    }

    method OptionalConnection(c: Option<Connection>, ghost ls: seq<Line>)
      requires Holds(ls)
      modifies this, buf
      ensures Holds(ls + ConnectionLine(c)) && (buf == old(buf) || fresh(buf))
    {
      hide Holds, ConnectionText;
      match c
      case None =>
        assert ls + [] == ls;
      case Some(c) =>
        ConnectionLineOf(c, ls);
    }

    method SessionOf(s: Session) returns (ghost order: seq<string>, ghost orders: seq<seq<string>>)
      requires Holds([])
      modifies this, buf
      ensures Walks(order, s.bandwidth) && MediaWalks(orders, s.media)
      ensures Holds(SessionLines(s, order, orders)) && (buf == old(buf) || fresh(buf))
    {
      hide Holds, HeaderLines, AllMediaLines, Walks;
      order := HeaderOf(s, []);
      ghost var header := HeaderLines(s, order);
      assert [] + header == header;
      orders := MediasOf(s.media, header);
    }

    method Reset()
      modifies this`pos, this`newline
      ensures Holds([])
    {
      pos, newline := 0, false;
    }

    /** Closes the open line, if any, and returns the text. */
    method Bytes() returns (text: string)
      requires Valid()
      modifies this, buf
      ensures Valid() && !newline && (buf == old(buf) || fresh(buf))
      ensures text == Contents() == old(Contents()) + (if old(newline) then "\r\n" else "")
    {
      assert Contents() + "" == Contents();
      if newline {
        Put("\r\n");
        newline := false;
      }
      text := buf[..pos];
    }

    /** Encodes a session: the text is the rendering of its lines, for some walk of each bandwidth map. */
    method Encode(s: Session) returns (text: string, ghost order: seq<string>, ghost orders: seq<seq<string>>)
      modifies this, buf
      ensures Walks(order, s.bandwidth) && MediaWalks(orders, s.media)
      ensures text == Render(SessionLines(s, order, orders))
      ensures buf == old(buf) || fresh(buf)
    {
      Reset();
      order, orders := SessionOf(s);
      ghost var ls := SessionLines(s, order, orders);
      assert ls != [] by { NotEmpty(s, order, orders); }
      WrittenIsRendered(ls);
      hide Walks, AllMediaLines, HeaderLines, Render, Written;
      text := Bytes();
    }
  }

  /** From the version to the connection. */
  function IdentityLines(s: Session): seq<Line>
  {
    [Line('v', Show(s.version))] + OriginLine(s.origin) + [Line('s', Dash(s.name))] + Optional('i', s.information)
    + Optional('u', s.uri) + Strings('e', s.email) + Strings('p', s.phone) + ConnectionLine(s.connection)
  }

  lemma HeaderIs(s: Session, order: seq<string>)
    requires forall k :: k in order ==> k in s.bandwidth
    ensures HeaderLines(s, order)
         == IdentityLines(s) + BandwidthLines(s.bandwidth, order) + ZoneLine(s.timeZone) + KeyLines(s.key) + Optional('a', s.mode)
            + AttrLines(s.attributes) + [Line('t', TimingText(s.timing))] + RepeatLines(s.repeat)
  {
    hide OriginLine, Optional, Strings, ConnectionLine, BandwidthLines, ZoneLine, KeyLines, AttrLines, TimingText, RepeatLines;
  }

  lemma LineGrows(ls: seq<Line>, kind: char, v: string)
    ensures Written(ls + [Line(kind, "")]) + v == Written(ls + [Line(kind, v)])
  {
    WrittenSnoc(ls, Line(kind, ""));
    WrittenSnoc(ls, Line(kind, v));
    var front := Written(ls) + (if ls == [] then "" else "\r\n");
    assert front + ([kind, '='] + "") + v == front + ([kind, '='] + v);
  }

  lemma Onward(ls: seq<Line>, done: seq<Line>, more: seq<Line>)
    ensures ls + done + more == ls + (done + more)
  {
  }

  lemma DefaultsNotEmpty(c: Connection)
    ensures Default(c.network, "IN") != "" && Default(c.typ, "IP4") != "" && Default(c.address, "127.0.0.1") != ""
  {
  }

  lemma AddressEnds(before: string, network: string, typ: string, tail: string)
    ensures before + (network + [' '] + typ + [' ']) + tail == before + JoinAll([network, typ, tail], ' ')
  {
    JoinThree(network, typ, tail);
    hide JoinAll;
    var head := network + [' '] + typ + [' '];
    assert before + head + tail == before + (head + tail);
  }

  lemma AddressStarts(before: string, network: string, typ: string, address: string)
    ensures before + JoinAll([network, typ, address], ' ') == before + (network + [' '] + typ + [' ']) + JoinAll([address], '/')
  {
    AddressEnds(before, network, typ, address);
    JoinOne(address, '/');
    hide JoinAll;
  }

  lemma HeadOfMedia(before: string, typ: string, port: string, proto: string)
    ensures before + typ + [' '] + port + [' '] + proto == before + JoinAll([typ, port, proto], ' ')
  {
    JoinThree(typ, port, proto);
    hide JoinAll;
    assert before + typ + [' '] + port + [' '] + proto == before + (typ + [' '] + port + [' '] + proto);
  }

  lemma JoinOne(a: string, sep: char)
    ensures JoinAll([a], sep) == a
  {
  }

  lemma JoinTwo(a: string, sep: char, b: string)
    ensures JoinAll([a, b], sep) == a + [sep] + b
  {
    JoinAllSnoc([a], sep, b);
    assert [a] + [b] == [a, b];
  }

  lemma JoinThree(a: string, b: string, c: string)
    ensures JoinAll([a, b, c], ' ') == a + [' '] + b + [' '] + c
  {
    JoinAllSnoc([a], ' ', b);
    JoinAllSnoc([a, b], ' ', c);
    assert [a] + [b] == [a, b] && [a, b] + [c] == [a, b, c];
  }

  lemma JoinPrefix(a: string, b: string, c: string, rest: seq<string>)
    requires rest != []
    ensures JoinAll([a, b, c] + rest, ' ') == a + [' '] + (b + [' '] + (c + [' '] + JoinAll(rest, ' ')))
  {
    var p2 := [c] + rest;
    var p1 := [b] + p2;
    var p0 := [a] + p1;
    assert p2[1..] == rest && p1[1..] == p2 && p0[1..] == p1;
    assert p2[0] == c && p1[0] == b && p0[0] == a;
    assert JoinAll(p2, ' ') == c + [' '] + JoinAll(rest, ' ');
    assert JoinAll(p1, ' ') == b + [' '] + JoinAll(p2, ' ');
    assert JoinAll(p0, ' ') == a + [' '] + JoinAll(p1, ' ');
    assert [a, b, c] + rest == p0;
  }

  lemma Nest(before: string, a: string, b: string, c: string, d: string)
    ensures before + a + [' '] + b + [' '] + c + [' '] + d == before + (a + [' '] + (b + [' '] + (c + [' '] + d)))
  {
  }

  /** Joining a joined list in last place is joining all. */
  lemma {:induction false} JoinNested(parts: seq<string>, list: seq<string>)
    requires parts != [] && list != []
    ensures JoinAll(parts + list, ' ') == JoinAll(parts + [JoinAll(list, ' ')], ' ')
    decreases |parts|
  {
    var last := JoinAll(list, ' ');
    var whole, nested := parts + list, parts + [last];
    assert |whole| > 1 && |nested| > 1 && whole[0] == nested[0] == parts[0];
    if |parts| == 1 {
      JoinOne(last, ' ');
      assert whole[1..] == list && nested[1..] == [last];
    } else {
      JoinNested(parts[1..], list);
      assert whole[1..] == parts[1..] + list && nested[1..] == parts[1..] + [last];
    }
  }

  lemma PayloadParts(before: string, name: string, pt: int64, v: string)
    ensures before + (name + [':'] + (Show(pt) + [' '])) + v == before + PayloadText(name, pt, v)
  {
    JoinTwo(Show(pt), ' ', v);
    JoinTwo(name, ':', JoinAll([Show(pt), v], ' '));
    assert before + (name + [':'] + (Show(pt) + [' '])) + v == before + (name + [':'] + (Show(pt) + [' '] + v));
  }

  /** A list function that goes through its argument from the front takes one more element at the end. */
  lemma {:induction false} OneMore<T(!new), U>(f: seq<T> -> seq<U>, g: T -> seq<U>, xs: seq<T>, x: T)
    requires f([]) == [] && forall s: seq<T> :: s != [] ==> f(s) == g(s[0]) + f(s[1..])
    ensures f(xs + [x]) == f(xs) + g(x)
    decreases |xs|
  {
    var all := xs + [x];
    if xs == [] {
      assert all[1..] == [] && f(all) == g(x) + [];
    } else {
      OneMore(f, g, xs[1..], x);
      assert all[1..] == xs[1..] + [x] && f(all) == g(xs[0]) + (f(xs[1..]) + g(x));
    }
  }

  lemma ZonePiecesSnoc(xs: seq<TimeZone>, x: TimeZone)
    ensures ZonePieces(xs + [x]) == ZonePieces(xs) + [TimeText(x.time), DurationText(x.offset)]
  {
    OneMore((all: seq<TimeZone>) => ZonePieces(all), (z: TimeZone) => [TimeText(z.time), DurationText(z.offset)], xs, x);
  }

  lemma OffsetPiecesSnoc(xs: seq<Duration>, x: Duration)
    ensures OffsetPieces(xs + [x]) == OffsetPieces(xs) + [DurationText(x)]
  {
    OneMore((all: seq<Duration>) => OffsetPieces(all), (d: Duration) => [DurationText(d)], xs, x);
  }

  lemma PayloadPiecesSnoc(xs: seq<Format>, x: Format)
    ensures PayloadPieces(xs + [x]) == PayloadPieces(xs) + [Show(x.payload)]
  {
    OneMore((all: seq<Format>) => PayloadPieces(all), (f: Format) => [Show(f.payload)], xs, x);
  }

  lemma StringsSnoc(kind: char, xs: seq<string>, x: string)
    ensures Strings(kind, xs + [x]) == Strings(kind, xs) + [Line(kind, Dash(x))]
  {
    OneMore((vs: seq<string>) => Strings(kind, vs), (v: string) => [Line(kind, Dash(v))], xs, x);
  }

  lemma ConnectionLinesSnoc(xs: seq<Connection>, x: Connection)
    ensures ConnectionLines(xs + [x]) == ConnectionLines(xs) + [Line('c', ConnectionText(x))]
  {
    OneMore((all: seq<Connection>) => ConnectionLines(all), (c: Connection) => [Line('c', ConnectionText(c))], xs, x);
  }

  lemma KeyLinesSnoc(xs: seq<Key>, x: Key)
    ensures KeyLines(xs + [x]) == KeyLines(xs) + [Line('k', PairText(x.kind, x.value))]
  {
    OneMore((all: seq<Key>) => KeyLines(all), (k: Key) => [Line('k', PairText(k.kind, k.value))], xs, x);
  }

  lemma AttrLinesSnoc(xs: seq<Attr>, x: Attr)
    ensures AttrLines(xs + [x]) == AttrLines(xs) + [Line('a', PairText(x.name, x.value))]
  {
    OneMore((all: seq<Attr>) => AttrLines(all), (a: Attr) => [Line('a', PairText(a.name, a.value))], xs, x);
  }

  lemma RepeatLinesSnoc(xs: seq<Repeat>, x: Repeat)
    ensures RepeatLines(xs + [x]) == RepeatLines(xs) + [Line('r', RepeatText(x))]
  {
    OneMore((all: seq<Repeat>) => RepeatLines(all), (r: Repeat) => [Line('r', RepeatText(r))], xs, x);
  }

  lemma PayloadLinesSnoc(name: string, pt: int64, xs: seq<string>, x: string)
    ensures PayloadLines(name, pt, xs + [x]) == PayloadLines(name, pt, xs) + [Line('a', PayloadText(name, pt, Dash(x)))]
  {
    OneMore((vs: seq<string>) => PayloadLines(name, pt, vs), (v: string) => [Line('a', PayloadText(name, pt, Dash(v)))], xs, x);
  }

  lemma FormatsLinesSnoc(xs: seq<Format>, x: Format)
    ensures FormatsLines(xs + [x]) == FormatsLines(xs) + FormatLines(x)
  {
    hide FormatLines;
    OneMore((all: seq<Format>) => FormatsLines(all), (f: Format) => FormatLines(f), xs, x);
  }

  lemma {:induction false} BandwidthLinesSnoc(b: Bandwidth, order: seq<string>, k: string)
    requires k in b && forall j :: j in order ==> j in b
    ensures BandwidthLines(b, order + [k]) == BandwidthLines(b, order) + [Line('b', JoinAll([Dash(k), Show(b[k])], ':'))]
    decreases |order|
  {
    if order == [] {
      assert order + [k] == [k] && [k][1..] == [];
    } else {
      BandwidthLinesSnoc(b, order[1..], k);
      assert (order + [k])[1..] == order[1..] + [k];
    }
  }

  lemma NotEmpty(s: Session, order: seq<string>, orders: seq<seq<string>>)
    requires Walks(order, s.bandwidth) && MediaWalks(orders, s.media)
    ensures SessionLines(s, order, orders) != []
  {
  }

  lemma OnlyKeys(order: seq<string>, b: Bandwidth)
    requires Walks(order, b)
    ensures forall k :: k in order ==> k in b
  {
  }

  lemma MediaWalksSnoc(orders: seq<seq<string>>, ms: seq<Media>, order: seq<string>, m: Media)
    requires MediaWalks(orders, ms) && Walks(order, m.bandwidth)
    ensures MediaWalks(orders + [order], ms + [m])
  {
  }

  lemma {:induction false} AllMediaLinesSnoc(ms: seq<Media>, orders: seq<seq<string>>, m: Media, order: seq<string>)
    requires MediaWalks(orders, ms) && Walks(order, m.bandwidth) && (forall k :: k in order ==> k in m.bandwidth)
    requires MediaWalks(orders + [order], ms + [m])
    ensures AllMediaLines(ms + [m], orders + [order]) == AllMediaLines(ms, orders) + MediaLines(m, order)
    decreases |ms|
  {
    hide MediaLines, Walks;
    var all, walks := ms + [m], orders + [order];
    if ms == [] {
      assert all == [m] && walks == [order] && all[1..] == [] && walks[1..] == [];
    } else {
      assert all[1..] == ms[1..] + [m] && walks[1..] == orders[1..] + [order];
      AllMediaLinesSnoc(ms[1..], orders[1..], m, order);
      assert Walks(orders[0], ms[0].bandwidth);
      OnlyKeys(orders[0], ms[0].bandwidth);
      Onward(MediaLines(ms[0], orders[0]), AllMediaLines(ms[1..], orders[1..]), MediaLines(m, order));
    }
  }
}
