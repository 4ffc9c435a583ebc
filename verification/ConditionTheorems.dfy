/**
 The main results about the condition compiler, for condition trees of any depth.
 */
module ConditionTheorems {
  import opened Text
  import opened SqlText
  import opened Conditions
  import opened ConditionReading
  import opened ConditionMeaning
  import JsonReading

  // ---------------------------------------------------------------- the expression a tree stands for

  /** What hand-written SQL reads as. */
  function QueryExpr(query: string, db: string): Expr
  {
    match ParseText(query, db)
    case Some(e) => e
    case None => Atom([])
  }

  /** The expression that an item stands for: one atom or one group. */
  function ItemExpr(c: Condition, env: Env): Expr
    decreases c, 0
  {
    var db, op := env.databaseType, ToLower(OperatorOrDefault(c));
    if c.inner != [] then Group(ListExpr(OrFlags(c.inner), ItemExprs(c.inner, env)))
    else if c.original.Some? && c.original.value.query != "" then Group(QueryExpr(c.original.value.query, db))
    else if c.values == [] then Atom([ColumnToken(c.column, db), Word(OperatorOrDefault(c)), Hole])
    else if op == "jin" then Group(QueryExpr(JsonContains(c.column, c.values, db).query, db))
    else Atom(InTokens(c.column, db, op == "notin", |c.values|))
  }

  function ItemExprs(cs: seq<Condition>, env: Env): (r: seq<Expr>)
    ensures |r| == |cs| && forall i :: 0 <= i < |cs| ==> r[i] == ItemExpr(cs[i], env)
    decreases cs, 0
  {
    if cs == [] then [] else [ItemExpr(cs[0], env)] + ItemExprs(cs[1..], env)
  }

  /** The expression that a tree stands for: siblings are an OR of AND-runs, and inner lists are groups. */
  function TreeExpr(cs: seq<Condition>, env: Env): Expr
    requires cs != []
  {
    ListExpr(OrFlags(cs), ItemExprs(cs, env))
  }

  /** Joins by symbols that the dialect does not read as words, at every level. */
  function Unspoken(cs: seq<Condition>, first: bool, db: string): nat { if SymbolsAreWords(db) then 0 else SymbolJoins(cs, first) }

  // ---------------------------------------------------------------- compiled items

  /** The text of a compiled item: its placeholders are its arguments, and its connectives those of its expression, but for the unspoken. */
  ghost predicate ItemCounts(c: Condition, env: Env, p: Piece)
  {
    && IsLogicalOperator(p.connective) && p.connective == ConnectiveOrDefault(c)
    && SafeEnds(p.body) && ReadTokens(p.body, env.databaseType).Some?
    && HolesIn(BodyTokens(p, env.databaseType)) == |p.args|
    && LinksIn(BodyTokens(p, env.databaseType)) + Unspoken(c.inner, true, env.databaseType) == Links(ItemExpr(c, env))
  }

  /** Its expression: one argument per placeholder, with the item's truth on every row. */
  ghost predicate ItemMeans(c: Condition, env: Env, p: Piece)
  {
    && Holes(ItemExpr(c, env)) == |p.args|
    && forall row, sem :: EvalExpr(ItemExpr(c, env), p.args, row, sem) == ItemTruth(c, env, row, sem)
  }

  /** The text reads as that expression, unless something in it is unspoken. */
  ghost predicate ItemReads(c: Condition, env: Env, p: Piece)
  {
    Unspoken(c.inner, true, env.databaseType) == 0 ==> ReadsAs(p.body, ItemExpr(c, env), env.databaseType)
  }

  ghost predicate ItemSound(c: Condition, env: Env, p: Piece) { ItemCounts(c, env, p) && ItemMeans(c, env, p) && ItemReads(c, env, p) }

  lemma OriginalSound(c: Condition, env: Env, connective: string, o: Original)
    requires c.inner == [] && IsLogicalOperator(connective) && connective == ConnectiveOrDefault(c)
    requires WellWritten(o, env.databaseType) && ItemExpr(c, env) == Group(QueryExpr(o.query, env.databaseType))
    requires forall row, sem :: ItemTruth(c, env, row, sem) == OriginalTruth(o, env.databaseType, row, sem)
    ensures ItemSound(c, env, OriginalPiece(connective, o))
  {
    hide ItemTruth, ItemExpr, ReadTokens;
    var db, p := env.databaseType, OriginalPiece(connective, o);
    var e, ts := ParseText(o.query, db).value, ReadTokens(o.query, db).value;
    assert p.body == "(" + o.query + ")";
    GroupReads(o.query, e, db);
    GroupTokens(o.query, db);
    ParseTextCounts(o.query, db);
    ParenCounts(ts);
    hide ReadsAs;
    assert BodyTokens(p, db) == [LParen] + ts + [RParen];
  }

  lemma ParenCounts(ts: seq<Token>)
    ensures HolesIn([LParen] + ts + [RParen]) == HolesIn(ts) && LinksIn([LParen] + ts + [RParen]) == LinksIn(ts)
  {
    HolesInConcat([LParen] + ts, [RParen]);
    HolesInConcat([LParen], ts);
    LinksInConcat([LParen] + ts, [RParen]);
    LinksInConcat([LParen], ts);
    OneToken(LParen);
    OneToken(RParen);
  }

  lemma SingleSound(c: Condition, env: Env)
    requires c.inner == [] && c.original.None? && c.values == []
    requires IsIdentifier(c.column) && ValidOperator(c) && ValidConnective(c)
    ensures var op := OperatorOrDefault(c);
            ItemSound(c, env, Piece(ConnectiveOrDefault(c), QuoteColumn(c.column, env.databaseType) + " " + op + " ?", [BoundValue(op, c.value)]))
  {
    hide ReadTokens, BoundValue, IsOperator;
    var db, op := env.databaseType, OperatorOrDefault(c);
    SingleReads(c.column, db, op);
    var ts := [ColumnToken(c.column, db), Word(op), Hole];
    SingleCounts(ColumnToken(c.column, db), Word(op));
    hide ReadsAs;
  }

  lemma SingleCounts(a: Token, b: Token)
    requires a.Quoted? && b.Word?
    ensures HolesIn([a, b, Hole]) == 1 && LinksIn([a, b, Hole]) == 0
  {
    OneToken(Hole);
    assert [a, b, Hole][1..] == [b, Hole] && [b, Hole][1..] == [Hole];
  }

  lemma ListOfValuesSound(c: Condition, env: Env, negated: bool)
    requires c.inner == [] && c.original.None? && c.values != []
    requires IsIdentifier(c.column) && ValidConnective(c)
    requires ToLower(OperatorOrDefault(c)) != "jin" && negated == (ToLower(OperatorOrDefault(c)) == "notin")
    ensures ItemSound(c, env,
                      Piece(ConnectiveOrDefault(c),
                            QuoteColumn(c.column, env.databaseType) + " " + InKeyword(negated) + " (" + Marks(|c.values|) + ")", c.values))
  {
    hide ReadTokens;
    var n, db := |c.values|, env.databaseType;
    var ts := InTokens(c.column, db, negated, n);
    InReads(c.column, db, negated, n);
    InCounts(c.column, db, negated, n);
    InShape(c.column, db, negated, n);
    hide ReadsAs;
  }

  lemma {:induction false} CommaHolesLinks(n: nat)
    ensures LinksIn(CommaHoles(n)) == 0
  {
    if n > 1 {
      CommaHolesLinks(n - 1);
      LinksInConcat([Hole, Comma], CommaHoles(n - 1));
    }
  }

  lemma InCounts(column: string, db: string, negated: bool, n: nat)
    ensures HolesIn(InTokens(column, db, negated, n)) == n && LinksIn(InTokens(column, db, negated, n)) == 0
  {
    var head := [ColumnToken(column, db)] + (if negated then [Word("not"), Word("in")] else [Word("in")]);
    JsonReading.NoHoles(head);
    HoleListCount(n);
    HolesInConcat(head, HoleList(n));
    CommaHolesLinks(n);
    ParenCounts(CommaHoles(n));
    LinksInConcat(head, HoleList(n));
    if negated {
      assert head[1..] == [Word("not"), Word("in")] && head[1..][1..] == [Word("in")];
    } else {
      assert head[1..] == [Word("in")];
    }
    OneToken(Word("in"));
  }

  lemma InShape(column: string, db: string, negated: bool, n: nat)
    ensures var ts := InTokens(column, db, negated, n);
            if negated then |ts| > 3 && ts[1] == Word("not") && ts[2] == Word("in") && ts[3..] == HoleList(n)
            else |ts| > 3 && ts[1] == Word("in") && ts[2..] == HoleList(n)
  {
  }

  lemma LeafSound(c: Condition, env: Env)
    requires IdentifierColumns(env) && WellWrittenItem(c, env.databaseType) && c.inner == []
    requires CompileItem(c, env).result.Ok?
    ensures ItemSound(c, env, CompileItem(c, env).result.value)
  {
    hide IsLogicalOperator, IsOperator, ItemSound;
    var op := ToLower(OperatorOrDefault(c));
    if c.original.Some? {
      assert c.original.value.query != "";
      OriginalSound(c, env, ConnectiveOrDefault(c), c.original.value);
    } else if c.values == [] {
      assert c.column in env.columns;
      SingleSound(c, env);
    } else if op == "jin" {
      var o := JsonContains(c.column, c.values, env.databaseType);
      assert c.column in env.columns;
      JsonReading.JsonContainsMeaning(c.column, c.values, env.databaseType);
      OriginalSound(c, env, ConnectiveOrDefault(c), o);
    } else {
      assert c.column in env.columns;
      TrimmedRepeat(|c.values|);
      ListOfValuesSound(c, env, op == "notin");
    }
  }

  lemma {:induction false} ItemIsSound(c: Condition, env: Env)
    requires IdentifierColumns(env) && WellWrittenItem(c, env.databaseType)
    requires CompileItem(c, env).result.Ok?
    ensures ItemSound(c, env, CompileItem(c, env).result.value)
    decreases c, 0
  {
    if c.inner == [] {
      LeafSound(c, env);
    } else {
      CompiledGroup(c, env);
      ListIsSound(c.inner, env);
      GroupSound(c, env);
    }
  }

  lemma {:induction false} ListIsSound(cs: seq<Condition>, env: Env)
    requires IdentifierColumns(env) && WellWrittenList(cs, env.databaseType)
    requires CompileList(cs, env).result.Ok?
    ensures ListSound(cs, env, CompileList(cs, env).result.value)
    decreases cs, 0
  {
    hide ItemSound;
    if cs != [] {
      ItemIsSound(cs[0], env);
      ListIsSound(cs[1..], env);
    }
  }

  ghost predicate ListSound(cs: seq<Condition>, env: Env, ps: seq<Piece>)
  {
    |ps| == |cs| && forall i :: 0 <= i < |cs| ==> ItemSound(cs[i], env, ps[i])
  }

  // ---------------------------------------------------------------- siblings

  lemma {:induction false} ListTruthAt(cs: seq<Condition>, env: Env, row: Row, sem: Semantics, i: nat)
    requires i < |cs|
    ensures ListTruth(cs, env, row, sem)[i] == ItemTruth(cs[i], env, row, sem)
  {
    if i > 0 {
      ListTruthAt(cs[1..], env, row, sem, i - 1);
    }
  }

  /** What the pieces of siblings are, taken together. */
  lemma PiecesOfSiblings(cs: seq<Condition>, env: Env, ps: seq<Piece>)
    requires ListSound(cs, env, ps)
    ensures Written(ps, env.databaseType) && Bound(ps, ItemExprs(cs, env)) && ConnectivesOf(ps) == OrFlags(cs)
    ensures forall i :: 0 <= i < |cs| ==> ps[i].connective == ConnectiveOrDefault(cs[i])
  {
    hide ReadTokens, ItemExpr, EvalExpr, ItemTruth, ItemReads;
    forall i | 0 <= i < |cs|
      ensures IsLogicalOperator(ps[i].connective) && SafeEnds(ps[i].body) && ReadTokens(ps[i].body, env.databaseType).Some?
      ensures Holes(ItemExpr(cs[i], env)) == |ps[i].args| && ps[i].connective == ConnectiveOrDefault(cs[i])
      ensures IsOr(ps[i].connective) == IsOr(cs[i].logicalOperator)
    {
      assert ItemSound(cs[i], env, ps[i]);
    }
  }

  lemma SiblingTruths(cs: seq<Condition>, env: Env, ps: seq<Piece>, row: Row, sem: Semantics)
    requires ListSound(cs, env, ps) && Bound(ps, ItemExprs(cs, env))
    ensures TruthsOf(ps, ItemExprs(cs, env), row, sem) == ListTruth(cs, env, row, sem)
  {
    hide ItemTruth, EvalExpr, ItemCounts, ItemReads, ItemExpr;
    forall i | 0 <= i < |cs|
      ensures TruthsOf(ps, ItemExprs(cs, env), row, sem)[i] == ListTruth(cs, env, row, sem)[i]
    {
      assert ItemSound(cs[i], env, ps[i]) && ItemMeans(cs[i], env, ps[i]);
      ListTruthAt(cs, env, row, sem, i);
    }
  }

  /** Placeholders, connectives and unspoken joins of siblings, all joined. */
  lemma {:induction false} SiblingCounts(cs: seq<Condition>, env: Env, ps: seq<Piece>)
    requires ListSound(cs, env, ps)
    ensures HolesOf(ps, env.databaseType) == |ArgsOf(ps)|
    ensures LinksOf(ps, env.databaseType) + Unspoken(cs, false, env.databaseType) == SumLinks(ItemExprs(cs, env)) + Unread(ps, env.databaseType)
    decreases |cs|
  {
    hide BodyTokens, ItemExpr, Links, ItemMeans, ItemReads, IsSymbolic, ConnectiveOrDefault, IsLogicalOperator, SafeEnds;
    if cs != [] {
      assert ItemSound(cs[0], env, ps[0]);
      SiblingCounts(cs[1..], env, ps[1..]);
      assert ItemExprs(cs, env)[1..] == ItemExprs(cs[1..], env);
    }
  }

  /** When nothing is unspoken, all joins are read as such, and all pieces as their items' expressions. */
  lemma SiblingsRead(cs: seq<Condition>, env: Env, ps: seq<Piece>)
    requires cs != [] && ListSound(cs, env, ps) && Unspoken(cs, true, env.databaseType) == 0
    ensures Readable(ps, ItemExprs(cs, env), env.databaseType) && Worded(ps, env.databaseType)
  {
    PiecesOfSiblings(cs, env, ps);
    NoSymbolJoins(cs, true);
    hide ReadsAs, ItemExpr, IsLogicalOperator, ConnectiveOrDefault, IsSymbolic;
    forall i | 0 <= i < |cs| ensures IsLogicalOperator(ps[i].connective) && ReadsAs(ps[i].body, ItemExpr(cs[i], env), env.databaseType) {
      assert ItemSound(cs[i], env, ps[i]) && ItemReads(cs[i], env, ps[i]) && ItemCounts(cs[i], env, ps[i]);
      NoSymbolJoins(cs[i].inner, true);
    }
  }

  /** The text of compiled siblings, trimmed, against the expression of their tree. */
  ghost predicate TextSound(cs: seq<Condition>, env: Env, text: string, args: seq<Value>)
    requires cs != []
  {
    var db, e := env.databaseType, TreeExpr(cs, env);
    && SafeEnds(text) && ReadTokens(text, db).Some?
    && HolesIn(ReadTokens(text, db).value) == |args|
    && LinksIn(ReadTokens(text, db).value) + Unspoken(cs, true, db) == Links(e)
    && Holes(e) == |args|
    && (forall row, sem :: EvalExpr(e, args, row, sem) == GroupTruth(OrFlags(cs), ListTruth(cs, env, row, sem)))
    && (Unspoken(cs, true, db) == 0 ==> ParseText(text, db) == Some(e))
  }

  /** What stands before the first sibling joins nothing. */
  lemma FirstJoinsNothing(cs: seq<Condition>)
    requires cs != []
    ensures SymbolJoins(cs, false) == SymbolJoins(cs, true) + (if IsSymbolic(ConnectiveOrDefault(cs[0])) then 1 else 0)
  {
  }

  lemma FirstUnread(ps: seq<Piece>, db: string)
    requires ps != []
    ensures Unread(ps, db) == (if !SymbolsAreWords(db) && IsSymbolic(ps[0].connective) then 1 else 0) + Unread(ps[1..], db)
  {
  }

  lemma TextCounts(cs: seq<Condition>, env: Env, ps: seq<Piece>)
    requires cs != [] && ListSound(cs, env, ps)
    ensures
      var text, db := StripConnectives(TextOf(ps)), env.databaseType;
      && SafeEnds(text) && ReadTokens(text, db).Some?
      && HolesIn(ReadTokens(text, db).value) == |ArgsOf(ps)|
      && LinksIn(ReadTokens(text, db).value) + Unspoken(cs, true, db) == Links(TreeExpr(cs, env))
  {
    var db := env.databaseType;
    PiecesOfSiblings(cs, env, ps);
    SiblingCounts(cs, env, ps);
    assert forall i :: 0 <= i < |ps| ==> IsLogicalOperator(ps[i].connective);
    hide ListSound, ReadTokens, BodyTokens, TailTokens, StripConnectives, TextOf, ArgsOf, Links, ItemExprs, ListExpr, IsLogicalOperator,
      Bound, SafeEnds, SymbolJoins, Unread, LinksOf, HolesOf, SumLinks, OrFlags, ConnectivesOf, IsSymbolic, ConnectiveOrDefault, SymbolsAreWords;
    PiecesTokens(ps, db);
    PiecesCounts(ps, db);
    FirstJoinsNothing(cs);
    FirstUnread(ps, db);
    ListLinks(OrFlags(cs), ItemExprs(cs, env));
  }

  lemma SiblingsMean(cs: seq<Condition>, env: Env, ps: seq<Piece>)
    requires cs != [] && ListSound(cs, env, ps)
    ensures
      var e := TreeExpr(cs, env);
      && Holes(e) == |ArgsOf(ps)|
      && forall row, sem :: EvalExpr(e, ArgsOf(ps), row, sem) == GroupTruth(OrFlags(cs), ListTruth(cs, env, row, sem))
  {
    var es := ItemExprs(cs, env);
    PiecesOfSiblings(cs, env, ps);
    hide ItemSound, EvalExpr, GroupTruth, ArgsOf, ListExpr, TruthsOf, ItemExprs;
    PiecesMeaning(ps, es, env.databaseType);
    forall row, sem
      ensures TruthsOf(ps, es, row, sem) == ListTruth(cs, env, row, sem)
    {
      SiblingTruths(cs, env, ps, row, sem);
    }
  }

  lemma SiblingsParse(cs: seq<Condition>, env: Env, ps: seq<Piece>)
    requires cs != [] && ListSound(cs, env, ps) && Unspoken(cs, true, env.databaseType) == 0
    ensures ParseText(StripConnectives(TextOf(ps)), env.databaseType) == Some(TreeExpr(cs, env))
  {
    PiecesOfSiblings(cs, env, ps);
    SiblingsRead(cs, env, ps);
    hide ItemSound, EvalExpr, GroupTruth, ArgsOf, ListExpr, TruthsOf, Readable, Worded, ParseText, StripConnectives, TextOf, ItemExprs;
    PiecesMeaning(ps, ItemExprs(cs, env), env.databaseType);
  }

  lemma SiblingsSound(cs: seq<Condition>, env: Env, ps: seq<Piece>)
    requires cs != [] && ListSound(cs, env, ps)
    ensures TextSound(cs, env, StripConnectives(TextOf(ps)), ArgsOf(ps))
  {
    TextCounts(cs, env, ps);
    SiblingsMean(cs, env, ps);
    hide ListSound, ReadTokens, EvalExpr, GroupTruth, StripConnectives, TextOf, ArgsOf, Links, TreeExpr, SafeEnds, ParseText, Unspoken;
    if Unspoken(cs, true, env.databaseType) == 0 {
      SiblingsParse(cs, env, ps);
    }
  }

  function GroupPiece(connective: string, ps: seq<Piece>): Piece
  {
    var text := StripConnectives(TextOf(ps));
    Piece(connective, "(" + StripConnectives(" " + connective + " " + text) + ")", ArgsOf(ps))
  }

  lemma CompiledGroup(c: Condition, env: Env)
    requires c.inner != [] && CompileItem(c, env).result.Ok?
    ensures CompileList(c.inner, env).result.Ok? && ValidConnective(c)
    ensures CompileItem(c, env).result.value == GroupPiece(ConnectiveOrDefault(c), CompileList(c.inner, env).result.value)
  {
    hide CompileList, IsOperator, IsLogicalOperator;
  }

  /** An inner list becomes one parenthesised primary. */
  lemma GroupSound(c: Condition, env: Env)
    requires c.inner != [] && CompileItem(c, env).result.Ok?
    requires CompileList(c.inner, env).result.Ok? && ListSound(c.inner, env, CompileList(c.inner, env).result.value)
    ensures ItemSound(c, env, CompileItem(c, env).result.value)
  {
    CompiledGroup(c, env);
    var ps, db := CompileList(c.inner, env).result.value, env.databaseType;
    var p, text, args := CompileItem(c, env).result.value, StripConnectives(TextOf(ps)), ArgsOf(ps);
    SiblingsSound(c.inner, env, ps);
    hide CompileList, CompileItem, ListSound, TextOf, ArgsOf, ReadTokens, Links, IsLogicalOperator;
    StripExact(ConnectiveOrDefault(c), text);
    assert p == Piece(ConnectiveOrDefault(c), "(" + text + ")", args);
    assert ItemExpr(c, env) == Group(TreeExpr(c.inner, env));
    GroupText(c, env, p, text, args);
  }

  lemma GroupText(c: Condition, env: Env, p: Piece, text: string, args: seq<Value>)
    requires c.inner != [] && TextSound(c.inner, env, text, args) && ValidConnective(c)
    requires p == Piece(ConnectiveOrDefault(c), "(" + text + ")", args) && ItemExpr(c, env) == Group(TreeExpr(c.inner, env))
    ensures ItemSound(c, env, p)
  {
    hide ReadTokens, ItemExpr, TreeExpr, IsLogicalOperator, GroupTruth, Unspoken;
    var db, e := env.databaseType, TreeExpr(c.inner, env);
    GroupTokens(text, db);
    ParenCounts(ReadTokens(text, db).value);
    if Unspoken(c.inner, true, db) == 0 {
      GroupReads(text, e, db);
    }
    hide ReadsAs, SafeEnds, ParseText;
    forall row, sem
      ensures EvalExpr(Group(e), args, row, sem) == ItemTruth(c, env, row, sem)
    {
    }
  }

  // ---------------------------------------------------------------- main results

  lemma CompiledIsSound(cs: seq<Condition>, env: Env, emptyCondition: bool)
    requires cs != [] && IdentifierColumns(env) && WellWrittenList(cs, env.databaseType)
    requires Compile(cs, env, emptyCondition).Ok?
    ensures var r := Compile(cs, env, emptyCondition).value; TextSound(cs, env, r.where, r.args)
  {
    hide TextSound, WellWrittenList, CompileList;
    ListIsSound(cs, env);
    SiblingsSound(cs, env, CompileList(cs, env).result.value);
  }

  /**
   Compiler correctness. The expression that a condition tree stands for has one placeholder per argument
   and, with the arguments bound in order, the truth of the tree on every row and for every database
   semantics. The where-text is read as that expression if and only if the dialect reads the symbols `&&`
   and `||` as connectives, or no sibling at any level is joined to the one before it by a symbol.
   */
  lemma CompiledTextMeansTree(cs: seq<Condition>, env: Env, emptyCondition: bool)
    requires cs != [] && IdentifierColumns(env) && WellWrittenList(cs, env.databaseType)
    requires Compile(cs, env, emptyCondition).Ok?
    ensures var r, e := Compile(cs, env, emptyCondition).value, TreeExpr(cs, env);
            && Holes(e) == |r.args|
            && (forall row, sem :: EvalExpr(e, r.args, row, sem) == GroupTruth(OrFlags(cs), ListTruth(cs, env, row, sem)))
            && (ParseText(r.where, env.databaseType) == Some(e) <==> SymbolsAreWords(env.databaseType) || JoinedByWords(cs))
  {
    hide ReadTokens, ParseExpr, EvalExpr, GroupTruth, ListTruth, Compile, TreeExpr;
    CompiledIsSound(cs, env, emptyCondition);
    NoSymbolJoins(cs, true);
    var r, db := Compile(cs, env, emptyCondition).value, env.databaseType;
    if ParseText(r.where, db) == Some(TreeExpr(cs, env)) {
      ParseTextCounts(r.where, db);
    }
  }

  /** The placeholders written in the text are exactly as many as the arguments, in every dialect. */
  lemma PlaceholdersMatchArguments(cs: seq<Condition>, env: Env, emptyCondition: bool)
    requires cs != [] && IdentifierColumns(env) && WellWrittenList(cs, env.databaseType)
    requires Compile(cs, env, emptyCondition).Ok?
    ensures var r := Compile(cs, env, emptyCondition).value;
            Tokenize(r.where).Some? && HolesIn(Tokenize(r.where).value) == |r.args|
  {
    hide EvalExpr, GroupTruth, ListTruth, Compile, TreeExpr, ParseExpr;
    CompiledIsSound(cs, env, emptyCondition);
    SpokenHoles(Tokenize(Compile(cs, env, emptyCondition).value.where).value, env.databaseType);
  }

  lemma {:induction false} SpokenHoles(ts: seq<Token>, db: string)
    ensures HolesIn(Spoken(ts, db)) == HolesIn(ts)
  {
    if ts != [] {
      SpokenHoles(ts[1..], db);
      assert Spoken(ts, db)[1..] == Spoken(ts[1..], db);
    }
  }

  lemma JsonQueryNotEmpty(column: string, values: seq<Value>, db: string)
    ensures JsonContains(column, values, db).query != ""
  {
  }

  lemma LeafTwice(c: Condition, env: Env)
    requires c.inner == []
    ensures CompileItem(CompileItem(c, env).item, env) == CompileItem(c, env)
  {
    JsonQueryNotEmpty(c.column, c.values, env.databaseType);
    hide IsOperator, IsLogicalOperator, StripConnectives, JsonContains, QuoteColumn, BoundValue, CompileList, Trim, Repeat, ToLower, OriginalPiece;
  }

  lemma {:induction false} ItemTwice(c: Condition, env: Env)
    ensures CompileItem(CompileItem(c, env).item, env) == CompileItem(c, env)
    decreases c, 0
  {
    if c.inner == [] {
      LeafTwice(c, env);
    } else {
      ListTwice(c.inner, env);
      hide IsOperator, IsLogicalOperator, StripConnectives, CompileLeaf, CompileList;
    }
  }

  lemma {:induction false} ListTwice(cs: seq<Condition>, env: Env)
    ensures CompileList(CompileList(cs, env).items, env) == CompileList(cs, env)
    decreases cs, 0
  {
    if cs != [] {
      ItemTwice(cs[0], env);
      hide CompileItem;
      var once := CompileList(cs, env);
      assert once.items[0] == CompileItem(cs[0], env).item;
      if CompileItem(cs[0], env).result.Err? {
        assert once.items[1..] == cs[1..];
      } else {
        ListTwice(cs[1..], env);
        assert once.items[1..] == CompileList(cs[1..], env).items;
      }
    }
  }

  /**
   Running the compiler again on the items it has rewritten (defaults filled in, JSON membership
   turned into hand-written SQL) returns the same text, arguments or error.
   */
  lemma CompileTwice(cs: seq<Condition>, env: Env, emptyCondition: bool)
    ensures Compile(CompileList(cs, env).items, env, emptyCondition) == Compile(cs, env, emptyCondition)
  {
    ListTwice(cs, env);
    assert CompileList(cs, env).items == [] <==> cs == [];
  }
}
