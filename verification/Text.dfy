/**
 Strings as the Go program sees them: sequences of one-byte characters, with the handful of
 `strings` and `strconv` operations the modelled packages call.
 */
module Text {

  datatype Option<+T> = None | Some(value: T)

  // ---------------------------------------------------------------- strings.Trim and friends

  /** strings.TrimLeft: the second argument is a set of characters, not a prefix. */
  function TrimLeft(s: string, cutset: string): string
  {
    if s != "" && s[0] in cutset then TrimLeft(s[1..], cutset) else s
  }

  /** strings.TrimRight. */
  function TrimRight(s: string, cutset: string): string
  {
    if s != "" && s[|s| - 1] in cutset then TrimRight(s[..|s| - 1], cutset) else s
  }

  /** strings.Trim. */
  function Trim(s: string, cutset: string): string
  {
    TrimRight(TrimLeft(s, cutset), cutset)
  }

  /** A string whose first and last characters survive the trim is left alone. */
  lemma TrimKeeps(s: string, cutset: string)
    requires s != "" && s[0] !in cutset && s[|s| - 1] !in cutset
    ensures Trim(s, cutset) == s
  {
  }

  /** A prefix made of trimmed characters goes, and nothing else does. */
  lemma {:induction false} TrimDropsPrefix(p: string, s: string, cutset: string)
    requires forall k :: 0 <= k < |p| ==> p[k] in cutset
    requires s != "" && s[0] !in cutset && s[|s| - 1] !in cutset
    ensures Trim(p + s, cutset) == s
  {
    if p == "" {
      assert p + s == s;
    } else {
      assert (p + s)[1..] == p[1..] + s;
      TrimDropsPrefix(p[1..], s, cutset);
    }
  }

  /** strings.Repeat. */
  function Repeat(s: string, n: nat): string
  {
    if n == 0 then "" else s + Repeat(s, n - 1)
  }

  /** The text has the word at this place. */
  predicate HasAt(text: string, word: string, i: nat) { i + |word| <= |text| && text[i..i + |word|] == word }

  /** strings.Join. */
  function Join(parts: seq<string>, sep: string): string
  {
    if |parts| == 0 then ""
    else if |parts| == 1 then parts[0]
    else parts[0] + sep + Join(parts[1..], sep)
  }

  /** Non-empty lists of parts with one character between neighbours. */
  function JoinAll(parts: seq<string>, sep: char): string
    requires parts != []
  {
    if |parts| == 1 then parts[0] else parts[0] + [sep] + JoinAll(parts[1..], sep)
  }

  lemma {:induction false} JoinAllSnoc(parts: seq<string>, sep: char, last: string)
    requires parts != []
    ensures JoinAll(parts + [last], sep) == JoinAll(parts, sep) + [sep] + last
  {
    if |parts| == 1 {
      assert (parts + [last])[1..] == [last];
    } else {
      JoinAllSnoc(parts[1..], sep, last);
      assert (parts + [last])[1..] == parts[1..] + [last];
      var front, tail := parts[0] + [sep], JoinAll(parts[1..], sep);
      assert front + (tail + [sep] + last) == front + tail + [sep] + last;
    }
  }

  /** The string does not contain the character. */
  predicate Free(s: string, c: char) { forall i :: 0 <= i < |s| ==> s[i] != c }

  /** `n` marks separated by commas: what the trimmed repetition is meant to be. */
  function Marks(n: nat): string
  {
    if n == 0 then "" else if n == 1 then "?" else "?," + Marks(n - 1)
  }

  lemma {:induction false} RepeatIsMarks(n: nat)
    requires n > 0
    ensures Repeat("?,", n) == Marks(n) + ","
    ensures Marks(n) != "" && Marks(n)[0] == '?' && Marks(n)[|Marks(n)| - 1] == '?'
  {
    if n == 1 {
      assert Repeat("?,", 1) == "?," + Repeat("?,", 0);
    } else {
      RepeatIsMarks(n - 1);
      assert Repeat("?,", n) == "?," + (Marks(n - 1) + ",");
    }
  }

  /** strings.Trim(strings.Repeat("?,", n), ",") leaves exactly n marks, comma separated. */
  lemma TrimmedRepeat(n: nat)
    requires n > 0
    ensures Trim(Repeat("?,", n), ",") == Marks(n)
  {
    RepeatIsMarks(n);
    var m := Marks(n);
    var s := m + ",";
    assert TrimLeft(s, ",") == s;
    assert s[..|s| - 1] == m;
    assert TrimRight(m, ",") == m;
  }

  // ---------------------------------------------------------------- case

  function LowerChar(c: char): char
  {
    if 'A' <= c <= 'Z' then (c as int + 32) as char else c
  }

  /** strings.ToLower on the ASCII alphabet; other characters are left as they are. */
  function ToLower(s: string): (r: string)
    ensures |r| == |s|
  {
    seq(|s|, i requires 0 <= i < |s| => LowerChar(s[i]))
  }

  // ---------------------------------------------------------------- decimal integers

  const MIN_INT64: int := -0x8000_0000_0000_0000
  const MAX_INT64: int := 0x7fff_ffff_ffff_ffff

  predicate IsInt64(n: int) { MIN_INT64 <= n <= MAX_INT64 }

  function DigitChar(d: nat): char
    requires d < 10
  {
    ('0' as int + d) as char
  }

  predicate IsDigit(c: char) { '0' <= c <= '9' }

  function ShowNat(n: nat): (s: string)
    ensures s != "" && forall k :: 0 <= k < |s| ==> IsDigit(s[k])
  {
    if n < 10 then [DigitChar(n)] else ShowNat(n / 10) + [DigitChar(n % 10)]
  }

  /** strconv.AppendInt in base ten. */
  function Show(n: int): (s: string)
    ensures s != "" && (s[0] == '-' || IsDigit(s[0]))
    ensures forall k :: 0 < k < |s| ==> IsDigit(s[k])
    ensures IsDigit(s[|s| - 1])
  {
    if n < 0 then "-" + ShowNat(-n) else ShowNat(n)
  }

  function DigitsValue(s: string): (r: Option<nat>)
    ensures (forall k :: 0 <= k < |s| ==> IsDigit(s[k])) <==> r.Some?
  {
    if s == "" then Some(0)
    else
      var n := |s| - 1;
      var front := DigitsValue(s[..n]);
      if IsDigit(s[n]) && front.Some? then
        Some(front.value * 10 + (s[n] as int - '0' as int))
      else None
  }

  /** strconv.ParseInt(s, 10, 64): an optional sign, at least one digit, and the value fits. */
  function ParseInt(s: string): (r: Option<int>)
    ensures r.Some? ==> IsInt64(r.value)
  {
    if s == "" then None
    else
      var signed := s[0] == '-' || s[0] == '+';
      var digits := if signed then s[1..] else s;
      if digits == "" then None
      else
        match DigitsValue(digits)
        case None => None
        case Some(v) =>
          var n: int := if s[0] == '-' then -(v as int) else v;
          if IsInt64(n) then Some(n) else None
  }

  lemma {:induction false} DigitsOfShowNat(n: nat)
    ensures DigitsValue(ShowNat(n)) == Some(n)
  {
    if n < 10 {
      assert DigitsValue([DigitChar(n)][..0]) == Some(0);
    } else {
      DigitsOfShowNat(n / 10);
      var s := ShowNat(n);
      assert s[..|s| - 1] == ShowNat(n / 10);
    }
  }

  /** Printing then parsing an int64 gives it back. */
  lemma ParseShow(n: int)
    requires IsInt64(n)
    ensures ParseInt(Show(n)) == Some(n)
  {
    if n < 0 {
      DigitsOfShowNat(-n);
      assert Show(n)[1..] == ShowNat(-n);
    } else {
      DigitsOfShowNat(n);
    }
  }

  /** The printed form is never longer than its value allows. */
  lemma {:induction false} ShowNatLength(n: nat, k: nat, bound: nat)
    requires k > 0 && bound == Power10(k) && n < bound
    ensures |ShowNat(n)| <= k
  {
    if n >= 10 {
      ShowNatLength(n / 10, k - 1, Power10(k - 1));
    }
  }

  function Power10(k: nat): nat
  {
    if k == 0 then 1 else 10 * Power10(k - 1)
  }

  /** An int64 needs at most the twenty bytes the encoder reserves for it. */
  lemma ShowInt64Length(n: int)
    requires IsInt64(n)
    ensures |Show(n)| <= 20
  {
    assert Power10(19) == 10_000_000_000_000_000_000 by {
      assert Power10(5) == 100_000;
      assert Power10(10) == 10_000_000_000;
      assert Power10(15) == 1_000_000_000_000_000;
    }
    ShowNatLength(if n < 0 then -n else n, 19, Power10(19));
  }
}
