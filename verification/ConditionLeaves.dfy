/**
 What single comparisons and value lists become, spelled out: the quoted column, the operator, the marks and
 the bound arguments. And what LIKE makes of the patterns that are bound.
 */
module ConditionLeaves {
  import opened Text
  import opened SqlText
  import opened Conditions
  import opened ConditionReading
  import opened ConditionMeaning
  import opened ConditionTheorems

  // ---------------------------------------------------------------- texts and arguments

  /** A value as text. */
  predicate Rendered(v: Value, text: string)
  {
    match v
    case Nil => text == "<nil>"
    case Int(n) => text == Show(n)
    case Str(s) => text == s
  }

  /** A column between the quotes of its dialect: double quotes, brackets or backticks. */
  predicate Quotes(db: string, column: string, text: string)
  {
    if ToLower(db) == "postgres" then text == "\"" + column + "\""
    else if ToLower(db) == "sqlserver" then text == "[" + column + "]"
    else text == "`" + column + "`"
  }

  /** A single comparison. */
  predicate Single(c: Condition) { c.inner == [] && c.original.None? && c.values == [] }

  /** Column, operator and mark of one comparison, and what is bound: the value or its LIKE pattern. */
  lemma OneComparison(c: Condition, env: Env, emptyCondition: bool, column: string, text: string)
    requires Single(c) && Quotes(env.databaseType, c.column, column) && Rendered(c.value, text)
    requires IdentifierColumns(env) && Compile([c], env, emptyCondition).Ok?
    ensures
      var op, r := if c.operator == "" then "=" else c.operator, Compile([c], env, emptyCondition).value;
      && r.where == column + " " + op + " ?"
      && r.args == [if op == "like" || op == "LIKE" then Str("%" + text + "%")
                    else if op == "llike" || op == "LLIKE" then Str("%" + text)
                    else c.value]
  {
    var op := if c.operator == "" then "=" else c.operator;
    var p := CompileItem(c, env).result.value;
    LeafText(c, env, column);
    OneItem(c, env, emptyCondition, p);
    BoundIs(op, c.value, text);
    assert [c][0] == c;
  }

  lemma LeafText(c: Condition, env: Env, column: string)
    requires c.inner == [] && c.original.None? && Quotes(env.databaseType, c.column, column) && CompileItem(c, env).result.Ok?
    ensures var op, p := if c.operator == "" then "=" else c.operator, CompileItem(c, env).result.value;
            && IsOperator(op) && c.column in env.columns && IsLogicalOperator(p.connective)
            && (c.values == [] ==> p.body == column + " " + op + " ?" && p.args == [BoundValue(op, c.value)])
  {
    hide IsOperator, BoundValue, ToLower, IsLogicalOperator;
  }

  /** The text and the arguments of one item alone are those of the item. */
  lemma OneItem(c: Condition, env: Env, emptyCondition: bool, p: Piece)
    requires Compile([c], env, emptyCondition).Ok? && CompileItem(c, env).result == Ok(p) && IsLogicalOperator(p.connective)
    requires SafeEnds(p.body)
    ensures Compile([c], env, emptyCondition).value == Compiled(p.body, p.args)
  {
    hide CompileItem, StripConnectives, SafeEnds, IsLogicalOperator;
    StripExact(p.connective, p.body);
    var none: seq<Condition> := [];
    assert [c][0] == c && [c][1..] == none && CompileList(none, env).result == Ok([]);
    assert CompileList([c], env).result == Ok([p] + []);
    assert [p] + [] == [p] && [p][1..] == [];
    assert TextOf([p]) == PieceText(p) + "" && ArgsOf([p]) == p.args + [];
    assert PieceText(p) + "" == " " + p.connective + " " + p.body;
  }

  lemma BoundIs(op: string, v: Value, text: string)
    requires IsOperator(op) && Rendered(v, text)
    ensures BoundValue(op, v) == if op == "like" || op == "LIKE" then Str("%" + text + "%")
                                 else if op == "llike" || op == "LLIKE" then Str("%" + text)
                                 else v
  {
    if |op| == 4 || |op| == 5 {
      assert ToLower("like") == "like" && ToLower("LIKE") == "like" && ToLower("llike") == "llike" && ToLower("LLIKE") == "llike";
      assert ToLower("notin")[0] == 'n' && ToLower("NOTIN")[0] == 'n';
    }
  }

  /** n marks between parentheses, separated by commas. */
  function MarkList(n: nat): string
    requires n > 0
  {
    "(" + "?" + Repeat(",?", n - 1) + ")"
  }

  lemma {:induction false} MarksAre(n: nat)
    requires n > 0
    ensures "(" + Trim(Repeat("?,", n), ",") + ")" == MarkList(n)
  {
    TrimmedRepeat(n);
    MarksRepeat(n);
  }

  lemma {:induction false} MarksRepeat(n: nat)
    requires n > 0
    ensures Marks(n) == "?" + Repeat(",?", n - 1)
  {
    if n > 1 {
      MarksRepeat(n - 1);
    }
  }

  lemma ListText(c: Condition, env: Env, column: string)
    requires c.inner == [] && c.original.None? && c.values != [] && c.operator !in {"jin", "JIN"}
    requires Quotes(env.databaseType, c.column, column) && CompileItem(c, env).result.Ok?
    ensures var p := CompileItem(c, env).result.value;
            && IsLogicalOperator(p.connective) && p.args == c.values
            && p.body == column + (if c.operator in {"notin", "NOTIN"} then " not in " else " in ") + ("(" + Trim(Repeat("?,", |c.values|), ",") + ")")
  {
    hide BoundValue, IsLogicalOperator, Trim, Repeat, ToLower, Quotes;
    ListOperator(if c.operator == "" then "=" else c.operator);
    var marks := Trim(Repeat("?,", |c.values|), ",");
    Regrouped(column, "in", marks);
    Regrouped(column, "not in", marks);
    assert QuoteColumn(c.column, env.databaseType) == column by { ColumnQuoted(env.databaseType, c.column, column); }
    hide QuoteColumn;
  }

  lemma ColumnQuoted(db: string, column: string, text: string)
    requires Quotes(db, column, text)
    ensures QuoteColumn(column, db) == text
  {
  }

  lemma Regrouped(column: string, word: string, marks: string)
    ensures column + " " + word + " (" + marks + ")" == column + (" " + word + " ") + ("(" + marks + ")")
    ensures " " + "in" + " " == " in " && " " + "not in" + " " == " not in "
  {
  }

  lemma ListOperator(op: string)
    ensures IsOperator(op) && ToLower(op) == "jin" ==> op == "jin" || op == "JIN"
    ensures IsOperator(op) ==> (ToLower(op) == "notin" <==> op == "notin" || op == "NOTIN")
  {
    if IsOperator(op) && (|op| == 3 || |op| == 5) {
      assert ToLower("notin") == "notin" && ToLower("NOTIN") == "notin";
      assert ToLower("llike")[0] == 'l' && ToLower("LLIKE")[0] == 'l';
    }
  }

  /** A column and a list of values: one mark and one argument for each of them, in order. */
  lemma OneList(c: Condition, env: Env, emptyCondition: bool, column: string)
    requires c.inner == [] && c.original.None? && c.values != [] && c.operator !in {"jin", "JIN"}
    requires Quotes(env.databaseType, c.column, column) && Compile([c], env, emptyCondition).Ok?
    ensures
      var r := Compile([c], env, emptyCondition).value;
      && r.where == column + (if c.operator in {"notin", "NOTIN"} then " not in " else " in ") + MarkList(|c.values|)
      && r.args == c.values
  {
    var p := OnlyPiece(c, env, emptyCondition);
    ListText(c, env, column);
    MarksAre(|c.values|);
    QuotesAreSafe(env.databaseType, c.column, column);
    hide Compile, CompileItem, Quotes, MarkList, Trim, Repeat, IsLogicalOperator;
    ListEnds(column, if c.operator in {"notin", "NOTIN"} then " not in " else " in ", |c.values|);
    OneItem(c, env, emptyCondition, p);
  }

  lemma OnlyPiece(c: Condition, env: Env, emptyCondition: bool) returns (p: Piece)
    requires Compile([c], env, emptyCondition).Ok?
    ensures CompileItem(c, env).result == Ok(p)
  {
    assert [c][0] == c;
    p := CompileItem(c, env).result.value;
  }

  lemma QuotesAreSafe(db: string, column: string, text: string)
    requires Quotes(db, column, text)
    ensures text != "" && Survives(text[0])
  {
  }

  lemma ListEnds(column: string, word: string, n: nat)
    requires column != "" && Survives(column[0]) && n > 0
    ensures SafeEnds(column + word + MarkList(n))
  {
    var s := column + word + MarkList(n);
    assert s[0] == column[0] && s[|s| - 1] == ')';
  }

  // ---------------------------------------------------------------- LIKE

  /** A LIKE pattern: `%` stands for any text, `_` for any character, anything else for itself. */
  ghost predicate Matches(pattern: string, text: string)
    decreases |pattern|
  {
    if pattern == "" then text == ""
    else if pattern[0] == '%' then exists k: nat :: k <= |text| && Matches(pattern[1..], text[k..])
    else text != "" && (pattern[0] == '_' || pattern[0] == text[0]) && Matches(pattern[1..], text[1..])
  }

  predicate Plain(s: string) { '%' !in s && '_' !in s && '\\' !in s }

  lemma {:induction false} PlainMatches(word: string, rest: string, text: string)
    requires Plain(word)
    ensures Matches(word + rest, text) <==> word <= text && Matches(rest, text[|word|..])
  {
    if word == "" {
      assert word + rest == rest && text[0..] == text;
    } else {
      assert (word + rest)[1..] == word[1..] + rest;
      if text != "" && text[0] == word[0] {
        PlainMatches(word[1..], rest, text[1..]);
        assert word <= text <==> word[1..] <= text[1..];
        assert word <= text ==> text[1..][|word[1..]|..] == text[|word|..];
      }
    }
  }

  lemma AnyTextMatches(text: string)
    ensures Matches("%", text)
  {
    assert text[|text|..] == "" && Matches("%"[1..], text[|text|..]);
  }

  lemma MatchesAt(word: string, rest: string, text: string, k: nat)
    requires Plain(word) && k <= |text|
    ensures Matches(word + rest, text[k..]) <==> HasAt(text, word, k) && Matches(rest, text[k + |word|..])
  {
    hide Matches, Plain;
    PlainMatches(word, rest, text[k..]);
    if word <= text[k..] {
      assert text[k..][..|word|] == text[k..k + |word|];
      assert text[k..][|word|..] == text[k + |word|..];
    }
    if HasAt(text, word, k) {
      assert text[k..][..|word|] == word;
      assert text[k..][|word|..] == text[k + |word|..];
    }
  }

  lemma AnyThenMatches(rest: string, text: string)
    ensures Matches("%" + rest, text) <==> exists k: nat :: k <= |text| && Matches(rest, text[k..])
  {
    assert ("%" + rest)[1..] == rest;
  }

  /** A percent sign, a word and a percent sign match just the texts that contain the word. */
  lemma ContainsMatches(word: string, text: string)
    requires Plain(word)
    ensures Matches("%" + word + "%", text) <==> exists k: nat :: HasAt(text, word, k)
  {
    AnyThenMatches(word + "%", text);
    assert "%" + (word + "%") == "%" + word + "%";
    forall k: nat | k <= |text| ensures Matches(word + "%", text[k..]) <==> HasAt(text, word, k) {
      MatchesAt(word, "%", text, k);
      if HasAt(text, word, k) {
        AnyTextMatches(text[k + |word|..]);
      }
    }
    hide Matches, Plain;
    if k: nat :| HasAt(text, word, k) {
      assert Matches(word + "%", text[k..]);
    }
  }

  /** A percent sign and a word match just the texts that end in the word. */
  lemma EndsMatches(word: string, text: string)
    requires Plain(word)
    ensures Matches("%" + word, text) <==> exists k: nat :: HasAt(text, word, k) && k + |word| == |text|
  {
    AnyThenMatches(word, text);
    forall k: nat | k <= |text| ensures Matches(word, text[k..]) <==> HasAt(text, word, k) && k + |word| == |text| {
      assert word + "" == word;
      MatchesAt(word, "", text, k);
    }
    hide Matches, Plain;
    if k: nat :| HasAt(text, word, k) && k + |word| == |text| {
      assert Matches(word, text[k..]);
    }
  }

  /** A database that compares text under an operator by matching patterns. */
  ghost predicate ByPattern(sem: Semantics, op: string)
  {
    forall text, pattern :: sem.compare(op, Str(text), Str(pattern)) == if Matches(pattern, text) then True else False
  }

  /** One comparison is read as one atom: its column, its operator and a mark. */
  lemma ComparisonRead(c: Condition, env: Env, emptyCondition: bool)
    requires Single(c) && c.operator != "" && IdentifierColumns(env) && Compile([c], env, emptyCondition).Ok?
    ensures ParseText(Compile([c], env, emptyCondition).value.where, env.databaseType)
            == Some(Atom([ColumnToken(c.column, env.databaseType), Word(c.operator), Hole]))
  {
    var db := env.databaseType;
    var e, ts := Atom([ColumnToken(c.column, db), Word(c.operator), Hole]), [ColumnToken(c.column, db), Word(c.operator), Hole];
    var p := CompileItem(c, env).result.value;
    assert [c][0] == c && p.body == QuoteColumn(c.column, db) + " " + c.operator + " ?" && IsLogicalOperator(p.connective) by {
      LeafText(c, env, QuoteColumn(c.column, db));
    }
    LeafText(c, env, QuoteColumn(c.column, db));
    SingleReads(c.column, db, c.operator);
    hide CompileItem, Compile, QuoteColumn, ReadTokens, IsOperator, IsLogicalOperator;
    OneItem(c, env, emptyCondition, p);
    var nothing: seq<Token> := [];
    assert ts + nothing == ts && EndsPrimary(nothing);
    assert ParsePrimary(ts) == Some(Parsed(e, nothing));
    assert ParseRun(ts) == Some(Parsed(e, nothing));
  }

  lemma ComparisonTruth(c: Condition, db: string, arg: Value, row: Row, sem: Semantics)
    ensures var e := Atom([ColumnToken(c.column, db), Word(c.operator), Hole]);
            Holes(e) == 1 && EvalExpr(e, [arg], row, sem) == sem.compare(ToLower(c.operator), Cell(row, c.column), arg)
  {
    SingleCounts(ColumnToken(c.column, db), Word(c.operator));
  }

  lemma AnyQuotes(db: string, column: string) returns (text: string)
    ensures Quotes(db, column, text)
  {
    text := QuoteColumn(column, db);
  }

  /** What the compiled text of one comparison means: the database compares the cell with what is bound. */
  lemma ComparisonMeans(c: Condition, env: Env, emptyCondition: bool, word: string, row: Row, sem: Semantics)
    requires Single(c) && c.operator != "" && Rendered(c.value, word)
    requires IdentifierColumns(env) && Compile([c], env, emptyCondition).Ok?
    ensures
      var op, r := c.operator, Compile([c], env, emptyCondition).value;
      var e := ParseText(r.where, env.databaseType);
      && e.Some? && Holes(e.value) == |r.args|
      && EvalExpr(e.value, r.args, row, sem)
         == sem.compare(ToLower(op), Cell(row, c.column),
                        if op == "like" || op == "LIKE" then Str("%" + word + "%")
                        else if op == "llike" || op == "LLIKE" then Str("%" + word) else c.value)
  {
    hide Compile, ParseText, EvalExpr, IdentifierColumns, Rendered, Holes, Quotes, ToLower;
    var column := AnyQuotes(env.databaseType, c.column);
    OneComparison(c, env, emptyCondition, column, word);
    ComparisonRead(c, env, emptyCondition);
    var r := Compile([c], env, emptyCondition).value;
    ComparisonTruth(c, env.databaseType, r.args[0], row, sem);
    assert r.args == [r.args[0]];
  }

  /**
   For a database that compares LIKE by patterns, the compiled text of `column like v`, with no wildcard in v,
   is true of a text in that column if and only if the text contains v.
   */
  lemma LikeMeansContains(c: Condition, env: Env, emptyCondition: bool, word: string, row: Row, text: string, sem: Semantics)
    requires Single(c) && c.operator in {"like", "LIKE"} && Rendered(c.value, word) && Plain(word)
    requires IdentifierColumns(env) && Compile([c], env, emptyCondition).Ok?
    requires c.column in row && row[c.column] == Str(text) && ByPattern(sem, "like")
    ensures
      var r := Compile([c], env, emptyCondition).value;
      var e := ParseText(r.where, env.databaseType);
      && e.Some? && Holes(e.value) == |r.args|
      && (EvalExpr(e.value, r.args, row, sem) == True <==> exists k: nat :: HasAt(text, word, k))
  {
    hide Compile, ParseText, EvalExpr, IdentifierColumns, Rendered, Holes, Plain, Matches, ToLower;
    ComparisonMeans(c, env, emptyCondition, word, row, sem);
    ContainsMatches(word, text);
    LowerWords();
  }

  /** The same for `llike`, which a database has to know as an operator, and texts that end in v. */
  lemma LlikeMeansEndsIn(c: Condition, env: Env, emptyCondition: bool, word: string, row: Row, text: string, sem: Semantics)
    requires Single(c) && c.operator in {"llike", "LLIKE"} && Rendered(c.value, word) && Plain(word)
    requires IdentifierColumns(env) && Compile([c], env, emptyCondition).Ok?
    requires c.column in row && row[c.column] == Str(text) && ByPattern(sem, "llike")
    ensures
      var r := Compile([c], env, emptyCondition).value;
      var e := ParseText(r.where, env.databaseType);
      && e.Some? && Holes(e.value) == |r.args|
      && (EvalExpr(e.value, r.args, row, sem) == True <==> exists k: nat :: HasAt(text, word, k) && k + |word| == |text|)
  {
    hide Compile, ParseText, EvalExpr, IdentifierColumns, Rendered, Holes, Plain, Matches, ToLower;
    ComparisonMeans(c, env, emptyCondition, word, row, sem);
    EndsMatches(word, text);
    LowerWords();
  }

  lemma LowerWords()
    ensures ToLower("like") == "like" && ToLower("LIKE") == "like" && ToLower("llike") == "llike" && ToLower("LLIKE") == "llike"
  {
  }
}
