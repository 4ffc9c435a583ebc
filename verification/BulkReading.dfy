/** The reader gives back what the bulk-update compiler meant. */
module BulkReading {
  import opened Text
  import opened SqlText
  import Conditions
  import opened BulkUpdate
  import opened BulkStatement

  // ---------------------------------------------------------------- what makes a statement readable

  /** The CASEs and ENDs of the tokens match, and no WHEN, ELSE or END stands outside them. */
  predicate Closed(ts: seq<Token>, depth: nat)
  {
    if ts == [] then depth == 0
    else
      !(depth == 0 && Stops(ts[0]))
      && var next := if Keyword(ts[0], "case") then depth + 1 else if depth > 0 && Keyword(ts[0], "end") then depth - 1 else depth;
         Closed(ts[1..], next)
  }

  /** SQL that can stand in a CASE: it can be read, is not empty, and has no placeholder of its own. */
  predicate OperandText(text: string)
  {
    Tokenize(text).Some? && TokensOf(text) != [] && Closed(TokensOf(text), 0) && !HasHole(TokensOf(text))
  }

  predicate Name(s: string) { '`' !in s }

  predicate GoodRecord(r: Record) { IsRaw(r) ==> OperandText(RawText(r)) }

  predicate GoodEntry(e: Entry)
  {
    Name(e.column) && OperandText(DefaultText(e.def)) && forall i :: 0 <= i < |Live(e.records)| ==> GoodRecord(Live(e.records)[i])
  }

  predicate GoodEntries(es: seq<Entry>) { forall i :: 0 <= i < |es| ==> GoodEntry(es[i]) }

  /** Every column has a record that is not skipped. */
  predicate AllLive(es: seq<Entry>) { forall i :: 0 <= i < |es| ==> Live(es[i].records) != [] }

  // ---------------------------------------------------------------- the tokens of a statement

  function OperandTokens(r: Record): seq<Token> { if IsRaw(r) then TokensOf(RawText(r)) else [Hole] }

  function WhenTokens(r: Record): seq<Token> { [Word("WHEN"), Hole, Word("then")] + OperandTokens(r) }

  function ArmsTokens(rs: seq<Record>): seq<Token>
  {
    if rs == [] then [] else WhenTokens(rs[0]) + ArmsTokens(rs[1..])
  }

  function CaseTokens(e: Entry, pk: string): seq<Token>
  {
    [Quoted('`', e.column), Word("="), Word("CASE"), Quoted('`', pk)]
    + (ArmsTokens(Live(e.records)) + ([Word("ELSE")] + (TokensOf(DefaultText(e.def)) + [Word("END")])))
  }

  function SetsTokens(es: seq<Entry>, pk: string): seq<Token>
    requires es != []
  {
    if |es| == 1 then CaseTokens(es[0], pk) else CaseTokens(es[0], pk) + ([Comma] + SetsTokens(es[1..], pk))
  }

  function KeysTokens(n: nat): seq<Token>
  {
    if n == 0 then [RParen] else if n == 1 then [Hole, RParen] else [Hole, Comma] + KeysTokens(n - 1)
  }

  function StatementTokens(table: string, pk: string, es: seq<Entry>): seq<Token>
    requires es != []
  {
    [Word("UPDATE"), Quoted('`', table), Word("SET")]
    + (SetsTokens(es, pk) + ([Word("where"), Quoted('`', pk), Word("in"), LParen] + KeysTokens(|AllKeys(es)|)))
  }

  // ---------------------------------------------------------------- from text to tokens

  lemma ShortWords()
    ensures Classify("END") == Word("END") && Classify("SET") == Word("SET") && Classify("in") == Word("in")
  {
    assert ToLower("END")[0] == 'e' && ToLower("SET")[0] == 's' && ToLower("in")[0] == 'i';
  }

  lemma WhenTokenized(r: Record)
    requires GoodRecord(r)
    ensures Tokenize(WhenText(r)) == Some(WhenTokens(r))
  {
    hide Tokenize;
    var body := if IsRaw(r) then RawText(r) else "?";
    if !IsRaw(r) {
      TokenizeLast('?');
    }
    assert Tokenize(body) == Some(OperandTokens(r));
    TokenizeSpacedWord("then", body);
    var a := " then " + body;
    assert a == " " + "then" + " " + body;
    TokenizePunctuation('?', a);
    assert "?" + a == ['?'] + a;
    TokenizeSpace("?" + a);
    TokenizeWord("WHEN", " " + ("?" + a));
    assert WhenText(r) == "WHEN" + (" " + ("?" + a));
    assert [Word("WHEN")] + ([Hole] + ([Word("then")] + OperandTokens(r))) == WhenTokens(r);
  }

  lemma {:induction false} ArmsTokenized(rs: seq<Record>)
    requires forall i :: 0 <= i < |rs| ==> GoodRecord(rs[i])
    ensures Tokenize(Join(WhenTexts(rs), " ")) == Some(ArmsTokens(rs))
  {
    hide Tokenize, WhenText, WhenTokens;
    if rs == [] {
      TokenizeNothing();
    } else {
      WhenTokenized(rs[0]);
      ArmsTokenized(rs[1..]);
      if |rs| == 1 {
        assert rs[1..] == [] && WhenTexts(rs) == [WhenText(rs[0])];
        assert ArmsTokens(rs) == WhenTokens(rs[0]) + ArmsTokens([]) == WhenTokens(rs[0]);
      } else {
        var rest := Join(WhenTexts(rs[1..]), " ");
        TokenizeSpace(rest);
        TokenizeConcat(WhenText(rs[0]), " " + rest);
        WhenTextsLength(rs);
        assert Join(WhenTexts(rs), " ") == WhenText(rs[0]) + (" " + rest);
      }
    }
  }

  lemma {:induction false} WhenTextsLength(rs: seq<Record>)
    ensures |WhenTexts(rs)| == |rs|
    ensures rs != [] ==> WhenTexts(rs)[1..] == WhenTexts(rs[1..])
  {
    if rs != [] {
      WhenTextsLength(rs[1..]);
    }
  }

  lemma CaseHead(column: string, pk: string)
    requires Name(column) && Name(pk)
    ensures Tokenize("`" + column + "` = CASE `" + pk + "`") == Some([Quoted('`', column), Word("="), Word("CASE"), Quoted('`', pk)])
  {
    hide Tokenize;
    TokenizeNothing();
    var key := ['`'] + pk + ['`'];
    TokenizeQuoted('`', pk, "");
    assert key + "" == key && [Quoted('`', pk)] + [] == [Quoted('`', pk)];
    TokenizeSpacedWord("CASE", key);
    var a := " CASE " + key;
    assert a == " " + "CASE" + " " + key;
    TokenizeWord("=", a);
    TokenizeSpace("=" + a);
    TokenizeQuoted('`', column, " " + ("=" + a));
    assert "`" + column + "` = CASE `" + pk + "`" == ['`'] + column + ['`'] + (" " + ("=" + a));
    assert [Quoted('`', column)] + ([Word("=")] + ([Word("CASE")] + [Quoted('`', pk)])) == [Quoted('`', column), Word("="), Word("CASE"), Quoted('`', pk)];
  }

  /** A text and a word that stands alone after it. */
  lemma ThenWord(a: string, w: string)
    requires Tokenize(a).Some? && w != "" && forall k :: 0 <= k < |w| ==> IsWordChar(w[k])
    ensures Tokenize(a + (" " + w)) == Some(Tokenize(a).value + [Classify(w)])
  {
    hide Tokenize;
    TokenizeNothing();
    TokenizeWord(w, "");
    assert w + "" == w && [Classify(w)] + [] == [Classify(w)];
    TokenizeSpace(w);
    TokenizeConcat(a, " " + w);
  }

  /** Two texts with a space between them. */
  lemma ThenText(a: string, b: string)
    requires Tokenize(a).Some? && Tokenize(b).Some?
    ensures Tokenize(a + (" " + b)) == Some(Tokenize(a).value + Tokenize(b).value)
  {
    hide Tokenize;
    TokenizeSpace(b);
    TokenizeConcat(a, " " + b);
  }

  lemma CaseTokenized(e: Entry, pk: string)
    requires GoodEntry(e) && Name(pk)
    ensures Tokenize(CaseText(e, pk)) == Some(CaseTokens(e, pk))
  {
    hide Tokenize, ArmsTokens, WhenTexts, DefaultText, Closed;
    var head := "`" + e.column + "` = CASE `" + pk + "`";
    var arms, other := Join(WhenTexts(Live(e.records)), " "), DefaultText(e.def);
    ShortWords();
    CaseHead(e.column, pk);
    ArmsTokenized(Live(e.records));
    ThenText(head, arms);
    var a := head + (" " + arms);
    ThenWord(a, "ELSE");
    var b := a + (" " + "ELSE");
    ThenText(b, other);
    var c := b + (" " + other);
    ThenWord(c, "END");
    assert CaseText(e, pk) == c + (" " + "END");
    var h := [Quoted('`', e.column), Word("="), Word("CASE"), Quoted('`', pk)];
    var t, d := ArmsTokens(Live(e.records)), TokensOf(other);
    assert h + t + [Word("ELSE")] + d + [Word("END")] == h + (t + ([Word("ELSE")] + (d + [Word("END")])));
  }

  lemma {:induction false} CasesTokenized(es: seq<Entry>, pk: string)
    requires es != [] && GoodEntries(es) && Name(pk)
    ensures Tokenize(Join(CaseTexts(es, pk), ", ")) == Some(SetsTokens(es, pk))
  {
    hide Tokenize, CaseText, CaseTokens, GoodEntry;
    CaseTokenized(es[0], pk);
    CaseTextsLength(es, pk);
    if |es| > 1 {
      CasesTokenized(es[1..], pk);
      ThenCases(CaseText(es[0], pk), Join(CaseTexts(es[1..], pk), ", "));
    }
  }

  /** Two texts with a comma and a space between them. */
  lemma ThenCases(a: string, b: string)
    requires Tokenize(a).Some? && Tokenize(b).Some?
    ensures Tokenize(a + ", " + b) == Some(Tokenize(a).value + ([Comma] + Tokenize(b).value))
  {
    hide Tokenize;
    TokenizeSpace(b);
    TokenizePunctuation(',', " " + b);
    TokenizeConcat(a, [','] + (" " + b));
    assert a + ", " + b == a + ([','] + (" " + b));
  }

  lemma {:induction false} CaseTextsLength(es: seq<Entry>, pk: string)
    ensures |CaseTexts(es, pk)| == |es|
    ensures es != [] ==> CaseTexts(es, pk)[0] == CaseText(es[0], pk) && CaseTexts(es, pk)[1..] == CaseTexts(es[1..], pk)
  {
    if es != [] {
      CaseTextsLength(es[1..], pk);
    }
  }

  // ---------------------------------------------------------------- the list of placeholders

  function HoleList(n: nat): string { if n == 0 then "" else if n == 1 then "?" else "?, " + HoleList(n - 1) }

  lemma {:induction false} RepeatIsHoleList(n: nat)
    requires n > 0
    ensures Repeat("?, ", n) == HoleList(n) + ", "
    ensures HoleList(n) != "" && HoleList(n)[0] == '?' && HoleList(n)[|HoleList(n)| - 1] == '?'
  {
    if n == 1 {
      assert Repeat("?, ", 1) == "?, " + Repeat("?, ", 0);
    } else {
      RepeatIsHoleList(n - 1);
      assert Repeat("?, ", n) == "?, " + (HoleList(n - 1) + ", ");
    }
  }

  lemma TrimmedHoles(n: nat)
    ensures Trim(Repeat("?, ", n), ", ") == HoleList(n)
  {
    if n > 0 {
      RepeatIsHoleList(n);
      var m := HoleList(n);
      var s := m + ", ";
      assert TrimLeft(s, ", ") == s;
      var c := m + ",";
      assert s[..|s| - 1] == c && c[..|c| - 1] == m;
      assert TrimRight(m, ", ") == m && TrimRight(c, ", ") == TrimRight(m, ", ");
    }
  }

  lemma {:induction false} HolesTokenized(n: nat)
    ensures Tokenize(HoleList(n) + ")") == Some(KeysTokens(n))
  {
    hide Tokenize;
    if n <= 1 {
      LastHoles();
    } else {
      HolesTokenized(n - 1);
      ThenHoles(HoleList(n - 1) + ")");
      assert HoleList(n) + ")" == "?, " + (HoleList(n - 1) + ")");
    }
  }

  lemma LastHoles()
    ensures Tokenize(HoleList(0) + ")") == Some(KeysTokens(0)) && Tokenize(HoleList(1) + ")") == Some(KeysTokens(1))
  {
    hide Tokenize;
    TokenizeLast(')');
    assert "" + ")" == ")";
    TokenizePunctuation('?', ")");
    assert "?" + ")" == ['?'] + ")" && [Hole] + [RParen] == [Hole, RParen];
  }

  /** A placeholder, a comma and a space before a text. */
  lemma ThenHoles(b: string)
    requires Tokenize(b).Some?
    ensures Tokenize("?, " + b) == Some([Hole, Comma] + Tokenize(b).value)
  {
    hide Tokenize;
    TokenizeSpace(b);
    TokenizePunctuation(',', " " + b);
    TokenizePunctuation('?', [','] + (" " + b));
    assert "?, " + b == ['?'] + ([','] + (" " + b));
    assert [Hole] + ([Comma] + Tokenize(b).value) == [Hole, Comma] + Tokenize(b).value;
  }

  lemma TailTokenized(pk: string, n: nat)
    requires Name(pk)
    ensures Tokenize("where `" + pk + "` in(" + HoleList(n) + ")") == Some([Word("where"), Quoted('`', pk), Word("in"), LParen] + KeysTokens(n))
  {
    hide Tokenize;
    var holes := HoleList(n) + ")";
    ShortWords();
    HolesTokenized(n);
    TokenizePunctuation('(', holes);
    TokenizeWord("in", ['('] + holes);
    TokenizeSpace("in" + (['('] + holes));
    var a := " " + ("in" + (['('] + holes));
    TokenizeQuoted('`', pk, a);
    var b := ['`'] + pk + ['`'] + a;
    TokenizeSpace(b);
    TokenizeWord("where", " " + b);
    assert "where `" + pk + "` in(" + HoleList(n) + ")" == "where" + (" " + b);
    assert [Word("where")] + ([Quoted('`', pk)] + ([Word("in")] + ([LParen] + KeysTokens(n))))
        == [Word("where"), Quoted('`', pk), Word("in"), LParen] + KeysTokens(n);
  }

  lemma HeadTokenized(table: string)
    requires Name(table)
    ensures Tokenize("UPDATE `" + table + "` SET") == Some([Word("UPDATE"), Quoted('`', table), Word("SET")])
  {
    hide Tokenize;
    TokenizeNothing();
    ShortWords();
    TokenizeWord("SET", "");
    assert "SET" + "" == "SET" && [Word("SET")] + [] == [Word("SET")];
    TokenizeSpace("SET");
    TokenizeQuoted('`', table, " " + "SET");
    var a := ['`'] + table + ['`'] + (" " + "SET");
    TokenizeSpace(a);
    TokenizeWord("UPDATE", " " + a);
    assert "UPDATE `" + table + "` SET" == "UPDATE" + (" " + a);
    assert [Word("UPDATE")] + ([Quoted('`', table)] + ([Word("SET")] + [])) == [Word("UPDATE"), Quoted('`', table), Word("SET")];
  }

  lemma StatementTokenized(table: string, pk: string, es: seq<Entry>)
    requires es != [] && GoodEntries(es) && Name(pk) && Name(table)
    ensures Tokenize(StatementText(table, pk, es)) == Some(StatementTokens(table, pk, es))
  {
    hide Tokenize, CaseTexts, SetsTokens, GoodEntries, HoleList, KeysTokens, AllKeys;
    var n, sets := |AllKeys(es)|, Join(CaseTexts(es, pk), ", ");
    var head, tail := "UPDATE `" + table + "` SET", "where `" + pk + "` in(" + HoleList(n) + ")";
    TrimmedHoles(n);
    HeadTokenized(table);
    CasesTokenized(es, pk);
    TailTokenized(pk, n);
    ThenText(head, sets);
    ThenText(head + (" " + sets), tail);
    assert StatementText(table, pk, es) == head + (" " + sets) + (" " + tail);
    var h, t, k := [Word("UPDATE"), Quoted('`', table), Word("SET")], SetsTokens(es, pk),
                   [Word("where"), Quoted('`', pk), Word("in"), LParen] + KeysTokens(n);
    assert h + t + k == h + (t + k);
  }
}
