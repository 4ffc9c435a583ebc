/**
 How the pieces the condition compiler emits are read back: each piece is one primary, and a list of
 pieces with its leading connective stripped is an OR of AND-runs.
 */
module ConditionReading {
  import opened Text
  import opened SqlText
  import opened Conditions

  // ---------------------------------------------------------------- stripping

  /** Which characters the k-th trim removes. */
  predicate Cuts(k: nat, c: char)
  {
    || c == ' '
    || (k == 0 && c == '&')
    || (k == 1 && c == '|')
    || (k == 2 && (c == 'a' || c == 'n' || c == 'd'))
    || (k == 3 && (c == 'o' || c == 'r'))
    || (k == 4 && (c == 'A' || c == 'N' || c == 'D'))
    || (k == 5 && (c == 'O' || c == 'R'))
  }

  lemma CutCharacters(k: nat, c: char)
    requires k < 6
    ensures c in Cut(k) <==> Cuts(k, c)
  {
    var s := Cut(k);
    assert s[0] == ' ' && s[1] == LogicalOperator(k)[0] && s[2] == LogicalOperator(k)[1];
    assert |LogicalOperator(k)| == 3 ==> s[3] == LogicalOperator(k)[2];
  }

  /** Characters in none of the six cut sets. */
  predicate Survives(c: char) { c == '(' || c == ')' || c == '?' || c == '`' || c == '\"' || c == '[' }

  predicate SafeEnds(s: string) { s != "" && Survives(s[0]) && Survives(s[|s| - 1]) }

  lemma SafeEndsStay(s: string, k: nat)
    requires SafeEnds(s) && k < 6
    ensures s[0] !in Cut(k) && s[|s| - 1] !in Cut(k)
  {
    CutCharacters(k, s[0]);
    CutCharacters(k, s[|s| - 1]);
  }

  lemma {:induction false} StripNothing(s: string, k: nat)
    requires SafeEnds(s)
    ensures StripFrom(s, k) == s
    decreases 6 - k
  {
    if k < 6 {
      SafeEndsStay(s, k);
      TrimKeeps(s, Cut(k));
      StripNothing(s, k + 1);
    }
  }

  /** A connective is cut whole by its own cut set and not touched by the others. */
  lemma ConnectiveVersusCut(at: nat, k: nat)
    requires at < 6 && k < 6
    ensures LogicalOperator(at) != ""
    ensures at == k ==> forall i :: 0 <= i < |LogicalOperator(at)| ==> LogicalOperator(at)[i] in Cut(k)
    ensures at != k ==> LogicalOperator(at)[0] !in Cut(k)
  {
    CutCharacters(k, LogicalOperator(at)[0]);
    if at == k {
      forall i | 0 <= i < |LogicalOperator(at)|
        ensures LogicalOperator(at)[i] in Cut(k)
      {
        assert Cut(k)[i + 1] == LogicalOperator(at)[i];
      }
    }
  }

  lemma SpaceIsCut(k: nat)
    requires k < 6
    ensures ' ' in Cut(k)
  {
    assert Cut(k)[0] == ' ';
  }

  lemma {:induction false} StripLeading(at: nat, s: string, k: nat)
    requires SafeEnds(s) && k <= at < 6
    ensures StripFrom(LogicalOperator(at) + " " + s, k) == s
    decreases 6 - k
  {
    hide LogicalOperator, Cut;
    var p := LogicalOperator(at) + " ";
    var t := p + s;
    ConnectiveVersusCut(at, k);
    SafeEndsStay(s, k);
    SpaceIsCut(k);
    assert t[0] == LogicalOperator(at)[0] && t[|t| - 1] == s[|s| - 1];
    if k == at {
      assert forall i :: 0 <= i < |p| ==> p[i] in Cut(k);
      TrimDropsPrefix(p, s, Cut(k));
      StripNothing(s, k + 1);
    } else {
      TrimKeeps(t, Cut(k));
      StripLeading(at, s, k + 1);
    }
  }

  /** The six character-set trims remove exactly the leading connective. */
  lemma StripExact(connective: string, s: string)
    requires IsLogicalOperator(connective) && SafeEnds(s)
    ensures StripConnectives(" " + connective + " " + s) == s
  {
    var at: nat := if connective == "&&" then 0 else if connective == "||" then 1 else if connective == "and" then 2
    else if connective == "or" then 3 else if connective == "AND" then 4 else 5;
    assert LogicalOperator(at) == connective;
    var p := connective + " ";
    var t := p + s;
    ConnectiveVersusCut(at, 0);
    SafeEndsStay(s, 0);
    SpaceIsCut(0);
    assert t[0] == connective[0] && t[|t| - 1] == s[|s| - 1];
    if at == 0 {
      assert " " + connective + " " + s == (" " + p) + s;
      TrimDropsPrefix(" " + p, s, Cut(0));
      StripNothing(s, 1);
    } else {
      assert " " + connective + " " + s == " " + t;
      TrimDropsPrefix(" ", t, Cut(0));
      StripLeading(at, s, 1);
    }
  }

  // ---------------------------------------------------------------- one piece

  /** The text is one primary wherever a primary can stand, and no trim can shorten it. */
  ghost predicate ReadsAs(body: string, e: Expr, db: string)
  {
    && SafeEnds(body)
    && ReadTokens(body, db).Some?
    && forall x: seq<Token> :: EndsPrimary(x) ==> ParsePrimary(ReadTokens(body, db).value + x) == Some(Parsed(e, x))
  }

  /** A text in parentheses. */
  lemma GroupTokens(text: string, db: string)
    requires ReadTokens(text, db).Some?
    ensures ReadTokens("(" + text + ")", db) == Some([LParen] + ReadTokens(text, db).value + [RParen])
    ensures SafeEnds("(" + text + ")")
  {
    hide Tokenize;
    var ts := Tokenize(text).value;
    var body := "(" + text + ")";
    TokenizeLast(')');
    TokenizeConcat(text, ")");
    TokenizePunctuation('(', text + ")");
    assert body == ['('] + (text + ")");
    assert Tokenize(body) == Some([LParen] + (ts + [RParen]));
    SpokenSum([LParen], ts + [RParen], db);
    SpokenSum(ts, [RParen], db);
    SpokenPlainly([LParen], db);
    SpokenPlainly([RParen], db);
    assert [LParen] + (Spoken(ts, db) + [RParen]) == [LParen] + Spoken(ts, db) + [RParen];
  }

  lemma GroupReads(text: string, e: Expr, db: string)
    requires ParseText(text, db) == Some(e)
    ensures ReadsAs("(" + text + ")", Group(e), db)
  {
    hide ReadTokens;
    var body, ts := "(" + text + ")", ReadTokens(text, db).value;
    GroupTokens(text, db);
    forall x: seq<Token> | EndsPrimary(x)
      ensures ParsePrimary(ReadTokens(body, db).value + x) == Some(Parsed(Group(e), x))
    {
      ParseGroup(ts, e, x);
      assert ReadTokens(body, db).value + x == [LParen] + ts + [RParen] + x;
    }
  }

  lemma AtomReads(body: string, ts: seq<Token>, db: string)
    requires SafeEnds(body) && ReadTokens(body, db) == Some(ts)
    requires ts != [] && !ts[0].LParen? && AtomLength(ts, 0) == Some(|ts|)
    ensures ReadsAs(body, Atom(ts), db)
  {
    hide ReadTokens;
    forall x: seq<Token> | EndsPrimary(x)
      ensures ParsePrimary(ReadTokens(body, db).value + x) == Some(Parsed(Atom(ts), x))
    {
      ParseAtom(ts, x);
    }
  }

  predicate IsPlain(t: Token) { t.Word? || t.Quoted? || t.Hole? || t.Comma? }

  /** Tokens that are neither parentheses nor connectives lengthen an atom one by one. */
  lemma {:induction false} PlainTokens(ts: seq<Token>, depth: nat, x: seq<Token>)
    requires forall k :: 0 <= k < |ts| ==> IsPlain(ts[k])
    requires AtomLength(x, depth).Some?
    ensures AtomLength(ts + x, depth) == Some(|ts| + AtomLength(x, depth).value)
  {
    if ts == [] {
      assert ts + x == x;
    } else {
      assert (ts + x)[1..] == ts[1..] + x && (ts + x)[0] == ts[0];
      PlainTokens(ts[1..], depth, x);
    }
  }

  lemma OpenParen(depth: nat, x: seq<Token>)
    requires AtomLength(x, depth + 1).Some?
    ensures AtomLength([LParen] + x, depth) == Some(1 + AtomLength(x, depth + 1).value)
  {
    assert ([LParen] + x)[1..] == x;
  }

  lemma CloseParen(depth: nat, x: seq<Token>)
    requires AtomLength(x, depth).Some?
    ensures AtomLength([RParen] + x, depth + 1) == Some(1 + AtomLength(x, depth).value)
  {
    assert ([RParen] + x)[1..] == x;
  }

  function ColumnToken(column: string, db: string): Token { Quoted(OpenQuote(db), column) }

  lemma IdentifierIsUnquoted(column: string, db: string)
    requires IsIdentifier(column)
    ensures CloseQuote(OpenQuote(db)) !in column
  {
  }

  /** A word that does not begin like a connective is not one. */
  lemma OrdinaryWord(w: string)
    requires w != "" && LowerChar(w[0]) != 'a' && LowerChar(w[0]) != 'o' && w[0] != '&' && w[0] != '|'
    ensures Classify(w) == Word(w) && !IsSymbol(Word(w))
  {
    assert ToLower(w)[0] == LowerChar(w[0]);
  }

  predicate IsOperatorChar(c: char)
  {
    || c == '<' || c == '>' || c == '=' || c == '!'
    || c == 'i' || c == 'j' || c == 'k' || c == 'l' || c == 'n' || c == 'o' || c == 't' || c == 'e'
    || c == 'I' || c == 'J' || c == 'K' || c == 'L' || c == 'N' || c == 'O' || c == 'T' || c == 'E'
  }

  lemma OperatorCharacters(op: string)
    requires IsOperator(op)
    ensures 0 < |op| <= 5 && op[0] != 'o' && op[0] != 'O' && IsOperatorChar(op[0])
    ensures |op| > 1 ==> IsOperatorChar(op[1])
    ensures |op| > 2 ==> IsOperatorChar(op[2])
    ensures |op| > 3 ==> IsOperatorChar(op[3])
    ensures |op| > 4 ==> IsOperatorChar(op[4])
  {
  }

  lemma OperatorCharIsWordChar(c: char)
    requires IsOperatorChar(c)
    ensures IsWordChar(c) && LowerChar(c) != 'a' && c != '&' && c != '|'
    ensures c != 'o' && c != 'O' ==> LowerChar(c) != 'o'
  {
  }

  lemma OperatorIsWord(op: string)
    requires IsOperator(op)
    ensures op != "" && (forall i :: 0 <= i < |op| ==> IsWordChar(op[i])) && Classify(op) == Word(op) && !IsSymbol(Word(op))
  {
    OperatorCharacters(op);
    hide IsOperator, Classify, IsOperatorChar, LowerChar, IsWordChar;
    OperatorCharIsWordChar(op[0]);
    OrdinaryWord(op);
    forall i | 0 <= i < |op|
      ensures IsWordChar(op[i])
    {
      assert IsOperatorChar(op[i]);
      OperatorCharIsWordChar(op[i]);
    }
  }

  lemma SingleReads(column: string, db: string, op: string)
    requires IsIdentifier(column) && IsOperator(op)
    ensures ReadTokens(QuoteColumn(column, db) + " " + op + " ?", db) == Some([ColumnToken(column, db), Word(op), Hole])
    ensures ReadsAs(QuoteColumn(column, db) + " " + op + " ?", Atom([ColumnToken(column, db), Word(op), Hole]), db)
  {
    hide Tokenize;
    var open := OpenQuote(db);
    var body := QuoteColumn(column, db) + " " + op + " ?";
    IdentifierIsUnquoted(column, db);
    OperatorIsWord(op);
    calc {
      Tokenize(body);
      { assert body == [open] + column + [CloseQuote(open)] + (" " + (op + " ?")); }
      { TokenizeQuoted(open, column, " " + (op + " ?")); }
      Prepend(ColumnToken(column, db), Tokenize(" " + (op + " ?")));
      { TokenizeSpace(op + " ?"); TokenizeWord(op, " ?"); }
      Prepend(ColumnToken(column, db), Prepend(Word(op), Tokenize(" ?")));
      { TokenizeSpace("?"); TokenizeLast('?'); assert " " + "?" == " ?"; }
      Prepend(ColumnToken(column, db), Prepend(Word(op), Some([Hole])));
      { assert [Word(op)] + [Hole] == [Word(op), Hole]; }
      Some([ColumnToken(column, db)] + [Word(op), Hole]);
      { assert [ColumnToken(column, db)] + [Word(op), Hole] == [ColumnToken(column, db), Word(op), Hole]; }
      Some([ColumnToken(column, db), Word(op), Hole]);
    }
    var ts := [ColumnToken(column, db), Word(op), Hole];
    PlainTokens(ts, 0, []);
    assert ts + [] == ts;
    SpokenPlainly(ts, db);
    AtomReads(body, ts, db);
  }

  // ---------------------------------------------------------------- placeholder lists

  lemma MarkThenComma(tail: string)
    requires Tokenize(tail).Some?
    ensures Tokenize("?," + tail) == Some([Hole, Comma] + Tokenize(tail).value)
  {
    hide Tokenize;
    TokenizePunctuation(',', tail);
    TokenizePunctuation('?', [','] + tail);
    assert "?," + tail == ['?'] + ([','] + tail);
    assert [Hole] + ([Comma] + Tokenize(tail).value) == [Hole, Comma] + Tokenize(tail).value;
  }

  lemma {:induction false} MarksRead(n: nat, rest: string)
    requires n > 0 && Tokenize(rest).Some?
    ensures Tokenize(Marks(n) + rest) == Some(CommaHoles(n) + Tokenize(rest).value)
  {
    hide Tokenize;
    if n == 1 {
      TokenizePunctuation('?', rest);
    } else {
      MarksRead(n - 1, rest);
      var tail := Marks(n - 1) + rest;
      MarkThenComma(tail);
      assert Marks(n) == "?," + Marks(n - 1) && CommaHoles(n) == [Hole, Comma] + CommaHoles(n - 1);
      hide Marks, CommaHoles;
      assert Marks(n) + rest == "?," + tail;
      assert CommaHoles(n) + Tokenize(rest).value == [Hole, Comma] + (CommaHoles(n - 1) + Tokenize(rest).value);
    }
  }

  /** The parenthesised list of marks, whatever follows it. */
  lemma HoleListReads(n: nat, rest: string)
    requires n > 0 && Tokenize(rest).Some?
    ensures Tokenize("(" + Marks(n) + ")" + rest) == Some(HoleList(n) + Tokenize(rest).value)
  {
    hide Tokenize;
    TokenizePunctuation(')', rest);
    MarksRead(n, [')'] + rest);
    TokenizePunctuation('(', Marks(n) + ([')'] + rest));
    assert "(" + Marks(n) + ")" + rest == ['('] + (Marks(n) + ([')'] + rest));
    assert HoleList(n) + Tokenize(rest).value == [LParen] + (CommaHoles(n) + ([RParen] + Tokenize(rest).value));
  }

  lemma {:induction false} CommaHolesPlain(n: nat)
    ensures forall k :: 0 <= k < |CommaHoles(n)| ==> IsPlain(CommaHoles(n)[k])
  {
    if n > 1 {
      CommaHolesPlain(n - 1);
    }
  }

  /** A hole list goes up one level and comes back. */
  lemma HoleListLength(n: nat, depth: nat, x: seq<Token>)
    requires AtomLength(x, depth).Some?
    ensures AtomLength(HoleList(n) + x, depth) == Some(|HoleList(n)| + AtomLength(x, depth).value)
  {
    hide AtomLength;
    var close := [RParen] + x;
    CloseParen(depth, x);
    CommaHolesPlain(n);
    PlainTokens(CommaHoles(n), depth + 1, close);
    OpenParen(depth, CommaHoles(n) + close);
    assert HoleList(n) + x == [LParen] + (CommaHoles(n) + close);
  }

  lemma {:induction false} CommaHolesCount(n: nat)
    ensures HolesIn(CommaHoles(n)) == n
  {
    if n > 1 {
      CommaHolesCount(n - 1);
      HolesInConcat([Hole, Comma], CommaHoles(n - 1));
    }
  }

  lemma HoleListCount(n: nat)
    ensures HolesIn(HoleList(n)) == n
  {
    CommaHolesCount(n);
    HolesInConcat([LParen] + CommaHoles(n), [RParen]);
    HolesInConcat([LParen], CommaHoles(n));
  }

  function InTokens(column: string, db: string, negated: bool, n: nat): seq<Token>
  {
    [ColumnToken(column, db)] + (if negated then [Word("not"), Word("in")] else [Word("in")]) + HoleList(n)
  }

  function InKeyword(negated: bool): string { if negated then "not in" else "in" }

  lemma InKeywordReads(negated: bool, rest: string)
    requires Tokenize(rest).Some?
    ensures Tokenize(" " + InKeyword(negated) + " " + rest)
         == Some((if negated then [Word("not"), Word("in")] else [Word("in")]) + Tokenize(rest).value)
  {
    hide Tokenize;
    OrdinaryWord("in");
    TokenizeSpacedWord("in", rest);
    if negated {
      OrdinaryWord("not");
      var tail := " " + "in" + " " + rest;
      TokenizeWord("not", tail);
      TokenizeSpace("not" + tail);
      assert "not in" == "not" + (" " + "in");
      assert " " + "not in" + " " + rest == " " + ("not" + tail);
      assert [Word("not")] + ([Word("in")] + Tokenize(rest).value) == [Word("not"), Word("in")] + Tokenize(rest).value;
    }
  }

  lemma InAtomLength(column: string, db: string, negated: bool, n: nat)
    ensures AtomLength(InTokens(column, db, negated, n), 0) == Some(|InTokens(column, db, negated, n)|)
  {
    HoleListLength(n, 0, []);
    assert HoleList(n) + [] == HoleList(n);
    PlainTokens([ColumnToken(column, db)] + (if negated then [Word("not"), Word("in")] else [Word("in")]), 0, HoleList(n));
  }

  lemma HoleListNoSymbols(n: nat)
    ensures NoSymbols(HoleList(n))
  {
    CommaHolesNoWords(n);
  }

  lemma {:induction false} CommaHolesNoWords(n: nat)
    ensures NoSymbols(CommaHoles(n))
  {
    if n > 1 {
      CommaHolesNoWords(n - 1);
    }
  }

  lemma InNoSymbols(column: string, db: string, negated: bool, n: nat)
    ensures NoSymbols(InTokens(column, db, negated, n))
  {
    HoleListNoSymbols(n);
  }

  lemma InReads(column: string, db: string, negated: bool, n: nat)
    requires IsIdentifier(column) && n > 0
    ensures ReadTokens(QuoteColumn(column, db) + " " + InKeyword(negated) + " (" + Marks(n) + ")", db) == Some(InTokens(column, db, negated, n))
    ensures ReadsAs(QuoteColumn(column, db) + " " + InKeyword(negated) + " (" + Marks(n) + ")",
                    Atom(InTokens(column, db, negated, n)), db)
  {
    hide Tokenize;
    var open := OpenQuote(db);
    var list := "(" + Marks(n) + ")";
    var tail := " " + InKeyword(negated) + " " + list;
    var body := QuoteColumn(column, db) + " " + InKeyword(negated) + " (" + Marks(n) + ")";
    IdentifierIsUnquoted(column, db);
    TokenizeNothing();
    HoleListReads(n, "");
    assert list + "" == list && HoleList(n) + [] == HoleList(n);
    InKeywordReads(negated, list);
    assert " (" == " " + "(";
    assert body == [open] + column + [CloseQuote(open)] + tail;
    TokenizeQuoted(open, column, tail);
    assert Tokenize(body).value == InTokens(column, db, negated, n);
    InAtomLength(column, db, negated, n);
    InNoSymbols(column, db, negated, n);
    SpokenPlainly(InTokens(column, db, negated, n), db);
    AtomReads(body, InTokens(column, db, negated, n), db);
  }
}
