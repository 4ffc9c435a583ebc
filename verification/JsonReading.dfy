/**
 How the JSON membership tests of the two dialects are read back.
 */
module JsonReading {
  import opened Text
  import opened SqlText
  import opened Conditions
  import opened ConditionReading

  lemma IdentifierReads(column: string, rest: string)
    requires IsIdentifier(column) && StartsFresh(rest)
    ensures Tokenize(column + rest) == Prepend(Word(column), Tokenize(rest))
  {
    hide Tokenize;
    TokenizeWord(column, rest);
  }

  // ---------------------------------------------------------------- MEMBER OF

  lemma MemberReads(column: string, rest: string)
    requires IsIdentifier(column) && Tokenize(rest).Some?
    ensures Tokenize(MemberTest(column) + rest) == Some(MemberTokens(column) + Tokenize(rest).value)
  {
    hide Tokenize;
    var close := [')'] + rest;
    var open := ['('] + (column + close);
    calc {
      Tokenize(MemberTest(column) + rest);
      { assert "? MEMBER OF(" == "?" + " " + "MEMBER" + " " + "OF" + "("; }
      { assert MemberTest(column) + rest == ['?'] + (" " + "MEMBER" + " " + ("OF" + open)); }
      { TokenizePunctuation('?', " " + "MEMBER" + " " + ("OF" + open)); }
      Prepend(Hole, Tokenize(" " + "MEMBER" + " " + ("OF" + open)));
      { OrdinaryWord("MEMBER"); TokenizeSpacedWord("MEMBER", "OF" + open); }
      Prepend(Hole, Prepend(Word("MEMBER"), Tokenize("OF" + open)));
      { OfIsWord(); TokenizeWord("OF", open); }
      Prepend(Hole, Prepend(Word("MEMBER"), Prepend(Word("OF"), Tokenize(open))));
      { TokenizePunctuation('(', column + close); IdentifierReads(column, close); TokenizePunctuation(')', rest); }
      Prepend(Hole, Prepend(Word("MEMBER"), Prepend(Word("OF"), Prepend(LParen, Prepend(Word(column), Prepend(RParen, Tokenize(rest)))))));
    }
    PrependAll(MemberTokens(column), Tokenize(rest).value);
  }

  lemma OfIsWord()
    ensures Classify("OF") == Word("OF")
  {
    assert ToLower("OF")[1] == 'f';
  }

  /** Six prepended tokens are one concatenation. */
  lemma PrependAll(ts: seq<Token>, rest: seq<Token>)
    requires |ts| == 6
    ensures Prepend(ts[0], Prepend(ts[1], Prepend(ts[2], Prepend(ts[3], Prepend(ts[4], Prepend(ts[5], Some(rest)))))))
         == Some(ts + rest)
  {
    assert [ts[0]] + ([ts[1]] + ([ts[2]] + ([ts[3]] + ([ts[4]] + ([ts[5]] + rest))))) == ts + rest;
  }

  function MemberChainText(column: string, n: nat): string
    requires n > 0
  {
    if n == 1 then MemberTest(column) else MemberTest(column) + " OR " + MemberChainText(column, n - 1)
  }

  lemma {:induction false} JoinIsChain(column: string, parts: seq<string>)
    requires parts != [] && forall k :: 0 <= k < |parts| ==> parts[k] == MemberTest(column)
    ensures Join(parts, " OR ") == MemberChainText(column, |parts|)
  {
    if |parts| > 1 {
      JoinIsChain(column, parts[1..]);
    }
  }

  function MemberChain(column: string, n: nat): Expr
    requires n > 0
  {
    if n == 1 then Atom(MemberTokens(column)) else Either(Atom(MemberTokens(column)), MemberChain(column, n - 1))
  }

  function MemberChainTokens(column: string, n: nat): seq<Token>
    requires n > 0
  {
    if n == 1 then MemberTokens(column) else MemberTokens(column) + ([Or] + MemberChainTokens(column, n - 1))
  }

  lemma {:induction false} MemberChainReads(column: string, n: nat)
    requires n > 0 && IsIdentifier(column)
    ensures Tokenize(MemberChainText(column, n)) == Some(MemberChainTokens(column, n))
    decreases n
  {
    hide Tokenize;
    if n == 1 {
      TokenizeNothing();
      MemberReads(column, "");
      assert MemberTest(column) + "" == MemberTest(column) && MemberTokens(column) + [] == MemberTokens(column);
    } else {
      MemberChainReads(column, n - 1);
      var tail := MemberChainText(column, n - 1);
      assert ToLower("OR") == "or";
      TokenizeSpacedWord("OR", tail);
      assert " " + "OR" + " " == " OR ";
      MemberReads(column, " OR " + tail);
      assert MemberChainText(column, n) == MemberTest(column) + (" OR " + tail);
    }
  }

  lemma MemberAtomLength(column: string)
    ensures AtomLength(MemberTokens(column), 0) == Some(6)
  {
    PlainTokens([Word(column)], 1, [RParen]);
    var inside := [LParen] + ([Word(column)] + [RParen]);
    assert inside[1..] == [Word(column)] + [RParen];
    PlainTokens([Hole, Word("MEMBER"), Word("OF")], 0, inside);
    assert MemberTokens(column) == [Hole, Word("MEMBER"), Word("OF")] + inside;
  }

  lemma {:induction false} MemberChainParses(column: string, n: nat)
    requires n > 0
    ensures ParseExpr(MemberChainTokens(column, n)) == Some(Parsed(MemberChain(column, n), []))
  {
    MemberAtomLength(column);
    if n == 1 {
      ParseAtom(MemberTokens(column), []);
      assert MemberTokens(column) + [] == MemberTokens(column);
    } else {
      MemberChainParses(column, n - 1);
      var tail := [Or] + MemberChainTokens(column, n - 1);
      assert tail[1..] == MemberChainTokens(column, n - 1);
      ParseAtom(MemberTokens(column), tail);
    }
  }

  lemma MemberHoles(column: string)
    ensures HolesIn(MemberTokens(column)) == 1
  {
    HolesInConcat([Hole], [Word("MEMBER"), Word("OF"), LParen, Word(column), RParen]);
    NoHoles([Word("MEMBER"), Word("OF"), LParen, Word(column), RParen]);
    assert MemberTokens(column) == [Hole] + [Word("MEMBER"), Word("OF"), LParen, Word(column), RParen];
  }

  lemma {:induction false} NoHoles(ts: seq<Token>)
    requires forall k :: 0 <= k < |ts| ==> !ts[k].Hole?
    ensures HolesIn(ts) == 0
  {
    if ts != [] {
      NoHoles(ts[1..]);
    }
  }

  lemma {:induction false} MemberChainHoles(column: string, n: nat)
    requires n > 0
    ensures Holes(MemberChain(column, n)) == n
  {
    MemberHoles(column);
    if n > 1 {
      MemberChainHoles(column, n - 1);
    }
  }

  /** The chain of membership tests holds as far as any one value is a member. */
  lemma {:induction false} MemberChainMeaning(column: string, values: seq<Value>, row: Row, sem: Semantics)
    requires values != []
    ensures Holes(MemberChain(column, |values|)) == |values|
    ensures EvalExpr(MemberChain(column, |values|), values, row, sem) == AnyMember(column, values, row, sem)
  {
    MemberChainHoles(column, |values|);
    MemberHoles(column);
    var head := MemberTokens(column);
    assert !head[0].Quoted? && values[..1] == [values[0]];
    assert EvalExpr(Atom(head), values[..1], row, sem) == sem.native(head, [values[0]], row);
    if |values| == 1 {
      assert values == values[..1];
      assert AnyMember(column, values[1..], row, sem) == False;
    } else {
      MemberChainHoles(column, |values| - 1);
      MemberChainMeaning(column, values[1..], row, sem);
    }
  }

  // ---------------------------------------------------------------- json_each

  predicate IsOrdinary(w: string)
  {
    w != "" && (forall i :: 0 <= i < |w| ==> IsWordChar(w[i])) && Classify(w) == Word(w)
  }

  lemma IsOrdinaryWord(w: string)
    requires w != "" && LowerChar(w[0]) != 'a' && LowerChar(w[0]) != 'o' && w[0] != '&' && w[0] != '|'
    requires forall i :: 0 <= i < |w| ==> IsWordChar(w[i])
    ensures IsOrdinary(w)
  {
    OrdinaryWord(w);
  }

  lemma WordThenRest(w: string, rest: string)
    requires IsOrdinary(w) && Tokenize(rest).Some?
    ensures Tokenize(w + " " + rest) == Some([Word(w)] + Tokenize(rest).value)
  {
    hide Tokenize, Classify;
    TokenizeSpace(rest);
    TokenizeWord(w, " " + rest);
    assert w + " " + rest == w + (" " + rest);
  }

  function Phrase(a: string, b: string, c: string, rest: string): string
  {
    a + " " + (b + " " + (c + " " + rest))
  }

  lemma PhraseReads(a: string, b: string, c: string, rest: string)
    requires IsOrdinary(a) && IsOrdinary(b) && IsOrdinary(c) && Tokenize(rest).Some?
    ensures Tokenize(Phrase(a, b, c, rest)) == Some([Word(a), Word(b), Word(c)] + Tokenize(rest).value)
  {
    hide Tokenize, IsOrdinary;
    WordThenRest(c, rest);
    WordThenRest(b, c + " " + rest);
    WordThenRest(a, b + " " + (c + " " + rest));
    assert [Word(a)] + ([Word(b)] + ([Word(c)] + Tokenize(rest).value)) == [Word(a), Word(b), Word(c)] + Tokenize(rest).value;
  }

  lemma SelectPhrase(rest: string)
    requires Tokenize(rest).Some?
    ensures Tokenize(Phrase("SELECT", "1", "FROM", rest)) == Some([Word("SELECT"), Word("1"), Word("FROM")] + Tokenize(rest).value)
  {
    hide Tokenize, Classify;
    IsOrdinaryWord("SELECT");
    IsOrdinaryWord("1");
    IsOrdinaryWord("FROM");
    PhraseReads("SELECT", "1", "FROM", rest);
  }

  lemma FilterPhrase(rest: string)
    requires Tokenize(rest).Some?
    ensures Tokenize(Phrase("WHERE", "value", "IN", rest)) == Some([Word("WHERE"), Word("value"), Word("IN")] + Tokenize(rest).value)
  {
    hide Tokenize, Classify;
    IsOrdinaryWord("WHERE");
    IsOrdinaryWord("value");
    IsOrdinaryWord("IN");
    PhraseReads("WHERE", "value", "IN", rest);
  }

  function ColumnCall(column: string, rest: string): string
  {
    "json_each" + (['('] + (column + ([')'] + rest)))
  }

  lemma ColumnCallReads(column: string, rest: string)
    requires IsIdentifier(column) && Tokenize(rest).Some?
    ensures Tokenize(ColumnCall(column, rest)) == Some([Word("json_each"), LParen, Word(column), RParen] + Tokenize(rest).value)
  {
    hide Tokenize, Classify;
    IsOrdinaryWord("json_each");
    TokenizePunctuation(')', rest);
    IdentifierReads(column, [')'] + rest);
    TokenizePunctuation('(', column + ([')'] + rest));
    TokenizeWord("json_each", ['('] + (column + ([')'] + rest)));
    assert [Word("json_each")] + ([LParen] + ([Word(column)] + ([RParen] + Tokenize(rest).value)))
        == [Word("json_each"), LParen, Word(column), RParen] + Tokenize(rest).value;
  }

  lemma SelectText(rest: string)
    ensures "(SELECT 1 FROM " + rest == ['('] + Phrase("SELECT", "1", "FROM", rest)
  {
    assert "(SELECT 1 FROM " == ['('] + "SELECT" + " " + "1" + " " + "FROM" + " ";
  }

  lemma FilterText(rest: string)
    ensures " WHERE value IN " + rest == " " + Phrase("WHERE", "value", "IN", rest)
  {
    assert " WHERE value IN " == " " + "WHERE" + " " + "value" + " " + "IN" + " ";
  }

  /** The query text taken apart at its words. */
  lemma ExistsText(column: string, marks: string)
    ensures "EXISTS " + "(SELECT 1 FROM " + "json_each(" + column + ")" + " WHERE value IN " + "(" + marks + "))"
         == "EXISTS" + " " + (['('] + Phrase("SELECT", "1", "FROM",
              ColumnCall(column, " " + Phrase("WHERE", "value", "IN", "(" + marks + ")" + ")"))))
  {
    var list := "(" + marks + ")" + ")";
    FilterText(list);
    var filter := " " + Phrase("WHERE", "value", "IN", list);
    assert "json_each(" == "json_each" + ['('];
    var call := ColumnCall(column, filter);
    SelectText(call);
    hide Phrase;
    assert call == "json_each(" + column + ")" + filter;
    assert "EXISTS " == "EXISTS" + " ";
  }

  lemma ExistsReads(column: string, n: nat)
    requires IsIdentifier(column) && n > 0
    ensures Tokenize("EXISTS " + "(SELECT 1 FROM " + "json_each(" + column + ")" + " WHERE value IN " + "(" + Marks(n) + "))")
         == Some(ExistsTokens(column, n))
  {
    hide Tokenize, Classify;
    ExistsText(column, Marks(n));
    hide ColumnCall, Phrase;
    TokenizeLast(')');
    HoleListReads(n, ")");
    var list := "(" + Marks(n) + ")" + ")";
    var filter := Phrase("WHERE", "value", "IN", list);
    FilterPhrase(list);
    TokenizeSpace(filter);
    ColumnCallReads(column, " " + filter);
    var select := Phrase("SELECT", "1", "FROM", ColumnCall(column, " " + filter));
    SelectPhrase(ColumnCall(column, " " + filter));
    TokenizePunctuation('(', select);
    IsOrdinaryWord("EXISTS");
    WordThenRest("EXISTS", ['('] + select);
    var close := HoleList(n) + [RParen];
    assert [Word("EXISTS")] + ([LParen] + ([Word("SELECT"), Word("1"), Word("FROM")] + ([Word("json_each"), LParen, Word(column), RParen]
             + ([Word("WHERE"), Word("value"), Word("IN")] + close)))) == ExistsTokens(column, n);
  }

  /** From the column to the end: one level of parentheses still open. */
  function ExistsTail(column: string, n: nat): seq<Token>
  {
    [LParen] + ([Word(column)] + ([RParen] + ([Word("WHERE"), Word("value"), Word("IN")] + (HoleList(n) + [RParen]))))
  }

  lemma ExistsTailLength(column: string, n: nat)
    ensures AtomLength(ExistsTail(column, n), 1) == Some(|ExistsTail(column, n)|)
  {
    var filter := [Word("WHERE"), Word("value"), Word("IN")];
    var close := HoleList(n) + [RParen];
    var afterColumn := [RParen] + (filter + close);
    assert [RParen] + [] == [RParen];
    CloseParen(0, []);
    hide AtomLength;
    HoleListLength(n, 1, [RParen]);
    PlainTokens(filter, 1, close);
    CloseParen(1, filter + close);
    PlainTokens([Word(column)], 2, afterColumn);
    OpenParen(1, [Word(column)] + afterColumn);
  }

  lemma ExistsLength(column: string, n: nat)
    ensures AtomLength(ExistsTokens(column, n), 0) == Some(|ExistsTokens(column, n)|)
  {
    hide AtomLength;
    var tail := ExistsTail(column, n);
    ExistsTailLength(column, n);
    var select := [Word("SELECT"), Word("1"), Word("FROM"), Word("json_each")];
    assert ExistsTokens(column, n) == [Word("EXISTS")] + ([LParen] + (select + tail));
    hide ExistsTail, ExistsTokens;
    PlainTokens(select, 1, tail);
    OpenParen(0, select + tail);
    PlainTokens([Word("EXISTS")], 0, [LParen] + (select + tail));
  }

  lemma ExistsParses(column: string, n: nat)
    ensures ParseExpr(ExistsTokens(column, n)) == Some(Parsed(Atom(ExistsTokens(column, n)), []))
  {
    ExistsLength(column, n);
    var ts := ExistsTokens(column, n);
    assert ts[0] == Word("EXISTS");
    hide ExistsTokens, AtomLength;
    ParseAtom(ts, []);
    assert ts + [] == ts;
  }

  lemma ExistsHoles(column: string, n: nat)
    ensures HolesIn(ExistsTokens(column, n)) == n
  {
    var ts := ExistsTokens(column, n);
    var close := HoleList(n) + [RParen];
    assert ts == ts[..12] + close;
    NoHoles(ts[..12]);
    HoleListCount(n);
    NoHoles([RParen]);
    HolesInConcat(ts[..12], close);
    HolesInConcat(HoleList(n), [RParen]);
  }

  // ---------------------------------------------------------------- either dialect

  lemma {:induction false} MemberChainNoSymbols(column: string, n: nat)
    requires n > 0 && IsIdentifier(column)
    ensures NoSymbols(MemberChainTokens(column, n))
  {
    IdentifierNoSymbol(column);
    if n > 1 {
      MemberChainNoSymbols(column, n - 1);
    }
  }

  lemma IdentifierNoSymbol(column: string)
    requires IsIdentifier(column)
    ensures !IsSymbol(Word(column))
  {
    assert IsIdentifierChar(column[0]);
  }

  lemma ExistsNoSymbols(column: string, n: nat)
    requires IsIdentifier(column)
    ensures NoSymbols(ExistsTokens(column, n))
  {
    IdentifierNoSymbol(column);
    HoleListNoSymbols(n);
  }

  /**
   The generated query reads as one expression and takes one argument per value: for SQLite one EXISTS over
   json_each, for every other database an OR of one MEMBER OF for each value. What these mean is the database's.
   */
  lemma JsonContainsMeaning(column: string, values: seq<Value>, db: string)
    requires IsIdentifier(column) && values != []
    ensures WellWritten(JsonContains(column, values, db), db)
    ensures forall row, sem :: OriginalTruth(JsonContains(column, values, db), db, row, sem)
              == if db == "sqlite" then sem.native(ExistsTokens(column, |values|), values, row) else AnyMember(column, values, row, sem)
  {
    var n := |values|;
    var o := JsonContains(column, values, db);
    if db == "sqlite" {
      TrimmedRepeat(n);
      ExistsReads(column, n);
      ExistsNoSymbols(column, n);
      SpokenPlainly(ExistsTokens(column, n), db);
      ExistsParses(column, n);
      ExistsHoles(column, n);
      assert ParseText(o.query, db) == Some(Atom(ExistsTokens(column, n)));
    } else {
      var parts := seq(n, _ => MemberTest(column));
      JoinIsChain(column, parts);
      MemberChainReads(column, n);
      MemberChainNoSymbols(column, n);
      SpokenPlainly(MemberChainTokens(column, n), db);
      MemberChainParses(column, n);
      MemberChainHoles(column, n);
      var chain := MemberChain(column, n);
      GroupText(MemberChainText(column, n), chain, db);
      forall row, sem
        ensures OriginalTruth(o, db, row, sem) == AnyMember(column, values, row, sem)
      {
        MemberChainMeaning(column, values, row, sem);
      }
    }
  }

  /** The truth of "some value is in the JSON array of the column". */
  ghost function AnyContained(column: string, values: seq<Value>, row: Row, contains: (string, Value, Row) -> Truth): Truth
  {
    if values == [] then False
    else OrT(contains(column, values[0], row), AnyContained(column, values[1..], row, contains))
  }

  /** A database that knows MEMBER OF, which MySQL does. */
  ghost predicate KnowsMemberOf(sem: Semantics, contains: (string, Value, Row) -> Truth)
  {
    forall column, v, row :: sem.native(MemberTokens(column), [v], row) == contains(column, v, row)
  }

  lemma {:induction false} MembersAreContained(column: string, values: seq<Value>, row: Row, sem: Semantics, contains: (string, Value, Row) -> Truth)
    requires KnowsMemberOf(sem, contains)
    ensures AnyMember(column, values, row, sem) == AnyContained(column, values, row, contains)
  {
    if values != [] {
      MembersAreContained(column, values[1..], row, sem, contains);
    }
  }

  /** On MySQL the generated query means that some value is in the JSON array. */
  lemma MySqlMembership(column: string, values: seq<Value>, db: string, row: Row, sem: Semantics, contains: (string, Value, Row) -> Truth)
    requires IsIdentifier(column) && values != [] && ToLower(db) == "mysql" && KnowsMemberOf(sem, contains)
    ensures OriginalTruth(JsonContains(column, values, db), db, row, sem) == AnyContained(column, values, row, contains)
  {
    hide OriginalTruth, JsonContains;
    JsonContainsMeaning(column, values, db);
    MembersAreContained(column, values, row, sem, contains);
  }

  /** An expression text in parentheses is the grouped expression. */
  lemma GroupText(text: string, e: Expr, db: string)
    requires ParseText(text, db) == Some(e)
    ensures ParseText("(" + text + ")", db) == Some(Group(e))
  {
    hide ReadTokens;
    GroupReads(text, e, db);
    var ts := ReadTokens("(" + text + ")", db).value;
    assert ts + [] == ts;
    assert ParsePrimary(ts) == Some(Parsed(Group(e), [])) by {
      var nothing: seq<Token> := [];
      assert EndsPrimary(nothing) && ts + nothing == ts;
      assert ParsePrimary(ts + nothing) == Some(Parsed(Group(e), nothing));
    }
    assert ParseRun(ts) == Some(Parsed(Group(e), []));
  }
}
