/**
 From text to lines: a line ends in any number of returns and a line feed, the last one perhaps in nothing
 at all, and decoding reads the lines one after the other until an empty line or the end of the text.
 */
module SdpLines {
  import opened Text
  import opened Sdp
  import opened SdpParse
  import opened SdpFields

  /** Reads lines one after the other into a session. */
  function Fold(s: Session, ls: seq<Line>): Result<Session>
    decreases |ls|
  {
    if ls == [] then Ok(s)
    else
      match Field(s, ls[0].kind, ls[0].value)
      case Err(kind) => Err(kind)
      case Ok(s') => Fold(s', ls[1..])
  }

  // ---------------------------------------------------------------- lines and their ends

  /** A line as it stands in a text, with the returns before its line feed. */
  datatype Written = Written(text: string, crs: nat)

  function Returns(n: nat): string { if n == 0 then "" else "\r" + Returns(n - 1) }

  /** Does not end in a return. */
  predicate Ends(t: string) { t == "" || t[|t| - 1] != '\r' }

  predicate Proper(ws: seq<Written>) { forall i :: 0 <= i < |ws| ==> Free(ws[i].text, '\n') && Ends(ws[i].text) }

  /** The lines with their ends, and at last a line without one, which is not there when it is empty. */
  function TextOf(ws: seq<Written>, last: string): string
  {
    if ws == [] then last else ws[0].text + Returns(ws[0].crs) + "\n" + TextOf(ws[1..], last)
  }

  function LineTexts(ws: seq<Written>, last: string): seq<string>
  {
    if ws == [] then (if last == "" then [] else [last]) else [ws[0].text] + LineTexts(ws[1..], last)
  }

  lemma {:induction false} CutReturns(t: string, n: nat)
    requires Ends(t)
    ensures TrimReturns(t + Returns(n)) == t
  {
    if n == 0 {
      assert t + "" == t;
    } else {
      ReturnsSnoc(n - 1);
      var s := t + Returns(n);
      assert s == t + Returns(n - 1) + "\r" && s[..|s| - 1] == t + Returns(n - 1);
      CutReturns(t, n - 1);
    }
  }

  lemma {:induction false} ReturnsSnoc(n: nat)
    ensures Returns(n + 1) == Returns(n) + "\r" && Free(Returns(n), '\n')
  {
    if n > 0 {
      ReturnsSnoc(n - 1);
    }
  }

  lemma ReadEnded(t: string, n: nat, rest: string)
    requires Free(t, '\n') && Ends(t)
    ensures ReadLine(t + Returns(n) + "\n" + rest) == (t, rest)
  {
    ReturnsSnoc(n);
    var u, s := t + Returns(n), t + Returns(n) + "\n" + rest;
    assert Free(u, '\n') && s == u + ['\n'] + rest;
    IndexOfFirst(u, '\n', rest);
    assert s[..|u|] == u && s[|u| + 1..] == rest;
    CutReturns(t, n);
  }

  lemma ReadLast(t: string)
    requires t != "" && Free(t, '\n')
    ensures ReadLine(t) == (t, "")
  {
  }

  /** Every text is such a text. */
  lemma {:induction false} EveryTextHasLines(text: string) returns (ws: seq<Written>, last: string)
    ensures Proper(ws) && Free(last, '\n') && TextOf(ws, last) == text
    decreases |text|
  {
    var k := IndexOf(text, '\n');
    if k == |text| {
      ws, last := [], text;
    } else {
      var t, n := SplitReturns(text[..k]);
      ws, last := EveryTextHasLines(text[k + 1..]);
      assert text == text[..k] + "\n" + text[k + 1..];
      ws := [Written(t, n)] + ws;
    }
  }

  lemma {:induction false} SplitReturns(u: string) returns (t: string, n: nat)
    ensures Ends(t) && u == t + Returns(n) && (Free(u, '\n') ==> Free(t, '\n'))
  {
    if Ends(u) {
      t, n := u, 0;
    } else {
      t, n := SplitReturns(u[..|u| - 1]);
      ReturnsSnoc(n);
      assert u == u[..|u| - 1] + "\r";
      n := n + 1;
    }
  }

  // ---------------------------------------------------------------- decoding lines

  /** A kind, an equals sign, and a value. */
  predicate Shaped(t: string) { |t| >= 2 && t[1] == '=' }

  function LineOf(t: string): Line
    requires Shaped(t)
  {
    Line(t[0], t[2..])
  }

  function LinesOf(ts: seq<string>): (r: seq<Line>)
    requires forall i :: 0 <= i < |ts| ==> Shaped(ts[i])
    ensures |r| == |ts|
  {
    if ts == [] then [] else [LineOf(ts[0])] + LinesOf(ts[1..])
  }

  /** What decoding does when the first k lines have been read: it ends, or line k is read, skipped over or refused. */
  ghost predicate After(d: Decoded, s: Session, ts: seq<string>, k: nat, line: nat)
    requires k <= |ts|
  {
    if k == |ts| then d == (if s.origin.Some? then Done(s) else Failed(Eof))
    else if ts[k] == "" && s.origin.Some? then d == Done(s)
    else if !Shaped(ts[k]) then d == Failed(AtLine(BadFormat, line, ts[k]))
    else Field(s, ts[k][0], ts[k][2..]).Err? ==> d == Failed(AtLine(Field(s, ts[k][0], ts[k][2..]).kind, line, ts[k]))
  }

  /** The next line of a text, and the text after it. */
  lemma NextLine(ws: seq<Written>, last: string) returns (rest: seq<Written>, final: string)
    requires Proper(ws) && Free(last, '\n') && LineTexts(ws, last) != []
    ensures TextOf(ws, last) != "" && ReadLine(TextOf(ws, last)) == (LineTexts(ws, last)[0], TextOf(rest, final))
    ensures Proper(rest) && Free(final, '\n') && LineTexts(rest, final) == LineTexts(ws, last)[1..]
  {
    if ws == [] {
      ReadLast(last);
      rest, final := [], "";
    } else {
      ReadEnded(ws[0].text, ws[0].crs, TextOf(ws[1..], last));
      rest, final := ws[1..], last;
    }
  }

  lemma {:induction false} DecodedFrom(ws: seq<Written>, last: string, s: Session, line: nat, k: nat)
    requires Proper(ws) && Free(last, '\n') && k <= |LineTexts(ws, last)|
    requires forall i :: 0 <= i < k ==> Shaped(LineTexts(ws, last)[i])
    requires Fold(s, LinesOf(LineTexts(ws, last)[..k])).Ok?
    ensures After(DecodeFrom(TextOf(ws, last), s, line), Fold(s, LinesOf(LineTexts(ws, last)[..k])).value, LineTexts(ws, last), k, line + k)
    decreases k
  {
    hide Field, ReadLine, Free, Proper;
    var ts := LineTexts(ws, last);
    if ts == [] {
      assert TextOf(ws, last) == "";
    } else {
      var rest, final := NextLine(ws, last);
      if k > 0 {
        assert Shaped(ts[0]) && ts[..k][0] == ts[0] && ts[..k][1..] == ts[1..][..k - 1];
        var s' := Field(s, ts[0][0], ts[0][2..]).value;
        DecodedFrom(rest, final, s', line + 1, k - 1);
      }
    }
  }

  /**
   Decoding any text. Its lines are read into a session one after the other; after the first k of them,
   decoding ends if there is no further line or an empty one once there is an origin, and it fails if the
   next line has no shape or is refused, or if the text ends without an origin.
   */
  lemma DecodedExactly(ws: seq<Written>, last: string, k: nat)
    requires Proper(ws) && Free(last, '\n') && k <= |LineTexts(ws, last)|
    requires forall i :: 0 <= i < k ==> Shaped(LineTexts(ws, last)[i])
    requires Fold(NO_SESSION, LinesOf(LineTexts(ws, last)[..k])).Ok?
    ensures
      var d, ts, s := Decode(TextOf(ws, last)), LineTexts(ws, last), Fold(NO_SESSION, LinesOf(LineTexts(ws, last)[..k])).value;
      && (k == |ts| ==> d == if s.origin.Some? then Done(s) else Failed(Eof))
      && (k < |ts| && ts[k] == "" && s.origin.Some? ==> d == Done(s))
      && (k < |ts| && !Shaped(ts[k]) && !(ts[k] == "" && s.origin.Some?) ==> d == Failed(AtLine(BadFormat, k + 1, ts[k])))
      && (k < |ts| && Shaped(ts[k]) && Field(s, ts[k][0], ts[k][2..]).Err? ==>
            d == Failed(AtLine(Field(s, ts[k][0], ts[k][2..]).kind, k + 1, ts[k])))
  {
    hide Field, DecodeFrom;
    DecodedFrom(ws, last, NO_SESSION, 1, k);
  }
}
