/**
 The query-condition compiler: what a tree of conditions is compiled to, and what it means.

 `CompileItem` and `CompileList` say what one call of the compiler returns and how it leaves the
 items it was given; `ItemTruth` says what the tree asks of a row without mentioning SQL text.
 */
module Conditions {
  import opened Text
  import opened SqlText

  datatype Value = Nil | Int(n: int) | Str(s: string)

  datatype Original = Original(query: string, values: seq<Value>)

  datatype Condition = Condition(
    column: string,
    value: Value,
    values: seq<Value>,
    operator: string,
    logicalOperator: string,
    original: Option<Original>,
    inner: seq<Condition>)

  /** The model's column names and the database dialect. */
  datatype Env = Env(columns: seq<string>, databaseType: string)

  datatype Error =
    | NoConditions
    | EmptyItem
    | MissingValue(column: string)
    | UnknownColumn(column: string)
    | BadOperator
    | BadLogicalOperator
    | DialectNotSet   // a panic in the program: JSON membership asked of an unnamed dialect

  datatype Result<+T> = Ok(value: T) | Err(error: Error)

  // ---------------------------------------------------------------- vocabulary

  /** The connectives, in the order in which the program trims them. */
  function LogicalOperator(k: nat): string
    requires k < 6
  {
    if k == 0 then "&&" else if k == 1 then "||" else if k == 2 then "and"
    else if k == 3 then "or" else if k == 4 then "AND" else "OR"
  }

  predicate IsLogicalOperator(s: string)
  {
    s == "&&" || s == "||" || s == "and" || s == "or" || s == "AND" || s == "OR"
  }

  predicate IsOr(connective: string) { connective == "||" || connective == "or" || connective == "OR" }

  predicate IsOperator(s: string)
  {
    || s == "<" || s == "<=" || s == ">" || s == ">=" || s == "!=" || s == "="
    || s == "in" || s == "IN" || s == "notin" || s == "NOTIN"
    || s == "like" || s == "LIKE" || s == "llike" || s == "LLIKE" || s == "jin" || s == "JIN"
  }

  function QuoteColumn(column: string, databaseType: string): string
  {
    var open := OpenQuote(databaseType);
    [open] + column + [CloseQuote(open)]
  }

  function OpenQuote(databaseType: string): (c: char)
    ensures IsOpenQuote(c)
  {
    var lower := ToLower(databaseType);
    if lower == "postgres" then '\"' else if lower == "sqlserver" then '[' else '`'
  }

  /** The `%v` rendering of a value. */
  function Format(v: Value): string
  {
    match v
    case Nil => "<nil>"
    case Int(n) => Show(n)
    case Str(s) => s
  }

  /** What an item without hand-written SQL has to have: inner items, or a known column with something to compare. */
  predicate ValidColumn(c: Condition, columns: seq<string>)
  {
    if c.column == "" then c.inner != [] else c.column in columns && (!c.value.Nil? || c.values != [])
  }

  function ColumnError(c: Condition, columns: seq<string>): (r: Option<Error>)
    ensures r.None? <==> ValidColumn(c, columns)
  {
    if c.column == "" then (if c.inner == [] then Some(EmptyItem) else None)
    else if c.value.Nil? && c.values == [] then Some(MissingValue(c.column))
    else if c.column !in columns then Some(UnknownColumn(c.column))
    else None
  }

  function OperatorOrDefault(c: Condition): string { if c.operator == "" then "=" else c.operator }

  function ConnectiveOrDefault(c: Condition): string { if c.logicalOperator == "" then "AND" else c.logicalOperator }

  predicate ValidOperator(c: Condition) { IsOperator(OperatorOrDefault(c)) }

  predicate ValidConnective(c: Condition) { IsLogicalOperator(ConnectiveOrDefault(c)) }

  function MemberTest(column: string): string { "? MEMBER OF(" + column + ")" }

  /** Membership of any of the values in a JSON array column. */
  function JsonContains(column: string, values: seq<Value>, databaseType: string): Original
  {
    if databaseType == "sqlite" then
      Original("EXISTS " + "(SELECT 1 FROM " + "json_each(" + column + ")" + " WHERE value IN "
               + "(" + Trim(Repeat("?,", |values|), ",") + "))", values)
    else
      Original("(" + Join(seq(|values|, _ => MemberTest(column)), " OR ") + ")", values)
  }

  function BoundValue(operator: string, v: Value): Value
  {
    var op := ToLower(operator);
    if op == "like" then Str("%" + Format(v) + "%")
    else if op == "llike" then Str("%" + Format(v))
    else v
  }

  // ---------------------------------------------------------------- what the compiler returns

  /** One sibling's contribution: its connective, its text and the arguments bound to its placeholders. */
  datatype Piece = Piece(connective: string, body: string, args: seq<Value>)

  function PieceText(p: Piece): string { " " + p.connective + " " + p.body }

  function TextOf(ps: seq<Piece>): string
  {
    if ps == [] then "" else PieceText(ps[0]) + TextOf(ps[1..])
  }

  function ArgsOf(ps: seq<Piece>): seq<Value>
  {
    if ps == [] then [] else ps[0].args + ArgsOf(ps[1..])
  }

  /** The six trims, one per connective spelling, each by a set of characters. */
  function StripConnectives(s: string): string
  {
    StripFrom(s, 0)
  }

  function Cut(k: nat): string
    requires k < 6
  {
    " " + LogicalOperator(k) + " "
  }

  function StripFrom(s: string, k: nat): string
    decreases 6 - k
  {
    if k >= 6 then s else StripFrom(Trim(s, Cut(k)), k + 1)
  }

  datatype Step = Step(item: Condition, result: Result<Piece>)

  datatype Steps = Steps(items: seq<Condition>, result: Result<seq<Piece>>)

  /** Compiles one item and says how the item is left. */
  function CompileItem(c: Condition, env: Env): Step
    decreases c, 0
  {
    if c.original.None? && ColumnError(c, env.columns).Some? then Step(c, Err(ColumnError(c, env.columns).value))
    else if !ValidOperator(c) then Step(c, Err(BadOperator))
    else
      var d := c.(operator := OperatorOrDefault(c));
      if !ValidConnective(c) then Step(d, Err(BadLogicalOperator))
      else
        var e := d.(logicalOperator := ConnectiveOrDefault(c));
        if c.inner != [] then
          var sub := CompileList(c.inner, env);
          Step(e.(inner := sub.items),
               match sub.result
               case Err(error) => Err(error)
               case Ok(ps) =>
                 var text := StripConnectives(TextOf(ps));
                 Ok(Piece(e.logicalOperator, "(" + StripConnectives(" " + e.logicalOperator + " " + text) + ")", ArgsOf(ps))))
        else CompileLeaf(e, env)
  }

  /** The item once validated and defaulted, without inner conditions. */
  function CompileLeaf(e: Condition, env: Env): Step
  {
    var op := ToLower(e.operator);
    if e.original.Some? && e.original.value.query != "" then
      Step(e, Ok(OriginalPiece(e.logicalOperator, e.original.value)))
    else if e.values != [] then
      if op == "jin" then
        if env.databaseType == "" then Step(e, Err(DialectNotSet))
        else
          var original := JsonContains(e.column, e.values, env.databaseType);
          Step(e.(original := Some(original)), Ok(OriginalPiece(e.logicalOperator, original)))
      else
        Step(e, Ok(Piece(e.logicalOperator,
                         QuoteColumn(e.column, env.databaseType) + " " + (if op == "notin" then "not in" else "in")
                         + " (" + Trim(Repeat("?,", |e.values|), ",") + ")",
                         e.values)))
    else
      Step(e, Ok(Piece(e.logicalOperator,
                       QuoteColumn(e.column, env.databaseType) + " " + e.operator + " ?",
                       [BoundValue(e.operator, e.value)])))
  }

  function OriginalPiece(connective: string, original: Original): Piece
  {
    Piece(connective, "(" + original.query + ")", original.values)
  }

  /** Compiles siblings from left to right; the first error stops the walk. */
  function CompileList(cs: seq<Condition>, env: Env): (r: Steps)
    ensures |r.items| == |cs|
    ensures r.result.Ok? ==> |r.result.value| == |cs|
    decreases cs, 0
  {
    if cs == [] then Steps([], Ok([]))
    else
      var head := CompileItem(cs[0], env);
      if head.result.Err? then Steps([head.item] + cs[1..], Err(head.result.error))
      else
        var tail := CompileList(cs[1..], env);
        Steps([head.item] + tail.items,
              if tail.result.Err? then Err(tail.result.error)
              else Ok([head.result.value] + tail.result.value))
  }

  datatype Compiled = Compiled(where: string, args: seq<Value>)

  /** What the call returns. */
  function Compile(cs: seq<Condition>, env: Env, emptyCondition: bool): Result<Compiled>
  {
    if cs == [] then (if emptyCondition then Ok(Compiled("", [])) else Err(NoConditions))
    else
      match CompileList(cs, env).result
      case Err(error) => Err(error)
      case Ok(ps) => Ok(Compiled(StripConnectives(TextOf(ps)), ArgsOf(ps)))
  }

  // ---------------------------------------------------------------- three-valued truth

  datatype Truth = False | Unknown | True
  {
    function Rank(): nat { if False? then 0 else if Unknown? then 1 else 2 }
  }

  function OrT(a: Truth, b: Truth): Truth { if a.Rank() >= b.Rank() then a else b }

  function AndT(a: Truth, b: Truth): Truth { if a.Rank() <= b.Rank() then a else b }

  function NotT(a: Truth): Truth { if a.True? then False else if a.False? then True else Unknown }

  type Row = map<string, Value>

  function Cell(row: Row, column: string): Value { if column in row then row[column] else Nil }

  /**
   The database's own say: how it compares a cell with a bound value under an operator, and what it
   answers for a predicate written in native SQL.
   */
  datatype Semantics = Semantics(
    compare: (string, Value, Value) -> Truth,
    native: (seq<Token>, seq<Value>, Row) -> Truth)

  function InTruth(cell: Value, values: seq<Value>, sem: Semantics): Truth
  {
    if values == [] then False
    else OrT(sem.compare("=", cell, values[0]), InTruth(cell, values[1..], sem))
  }

  // ---------------------------------------------------------------- what emitted text means

  function CommaHoles(n: nat): seq<Token>
  {
    if n == 0 then [] else if n == 1 then [Hole] else [Hole, Comma] + CommaHoles(n - 1)
  }

  function HoleList(n: nat): seq<Token> { [LParen] + CommaHoles(n) + [RParen] }

  function EvalAtom(ts: seq<Token>, args: seq<Value>, row: Row, sem: Semantics): Truth
  {
    if |ts| == 3 && ts[0].Quoted? && ts[1].Word? && ts[2].Hole? && |args| == 1 then
      sem.compare(ToLower(ts[1].text), Cell(row, ts[0].body), args[0])
    else if |ts| > 2 && ts[0].Quoted? && ts[1] == Word("in") && ts[2..] == HoleList(|args|) then
      InTruth(Cell(row, ts[0].body), args, sem)
    else if |ts| > 3 && ts[0].Quoted? && ts[1] == Word("not") && ts[2] == Word("in") && ts[3..] == HoleList(|args|) then
      NotT(InTruth(Cell(row, ts[0].body), args, sem))
    else sem.native(ts, args, row)
  }

  /** Evaluates an expression, binding arguments to placeholders by position. */
  function EvalExpr(e: Expr, args: seq<Value>, row: Row, sem: Semantics): Truth
    requires |args| == Holes(e)
  {
    match e
    case Either(l, r) => OrT(EvalExpr(l, args[..Holes(l)], row, sem), EvalExpr(r, args[Holes(l)..], row, sem))
    case Both(l, r) => AndT(EvalExpr(l, args[..Holes(l)], row, sem), EvalExpr(r, args[Holes(l)..], row, sem))
    case Group(i) => EvalExpr(i, args, row, sem)
    case Atom(ts) => EvalAtom(ts, args, row, sem)
  }

  // ---------------------------------------------------------------- what the tree means

  predicate AtLeast(ts: seq<Truth>, i: nat, j: nat, level: nat)
    requires i <= j <= |ts|
  {
    forall k :: i <= k < j ==> ts[k].Rank() >= level
  }

  /** Siblings i up to j are joined by AND, and the run ends on both sides at an OR or at an end of the list. */
  predicate IsRun(or: seq<bool>, i: int, j: int)
  {
    && 0 <= i < j <= |or|
    && (i == 0 || or[i])
    && (j == |or| || or[j])
    && forall k :: i < k < j ==> !or[k]
  }

  ghost predicate SomeRunReaches(or: seq<bool>, ts: seq<Truth>, level: nat)
    requires |or| == |ts|
  {
    exists i, j :: IsRun(or, i, j) && AtLeast(ts, i, j, level)
  }

  /**
   Siblings read as an OR of AND-runs, whatever the first sibling's own connective: the group is as
   true as the truest run, and a run is as true as its least true member.
   */
  ghost function GroupTruth(or: seq<bool>, ts: seq<Truth>): Truth
    requires |or| == |ts|
  {
    if SomeRunReaches(or, ts, 2) then True
    else if SomeRunReaches(or, ts, 1) then Unknown
    else False
  }

  function OrFlags(cs: seq<Condition>): (r: seq<bool>)
    ensures |r| == |cs|
  {
    seq(|cs|, i requires 0 <= i < |cs| => IsOr(cs[i].logicalOperator))
  }

  /** Hand-written SQL, as the dialect takes it. */
  function OriginalTruth(o: Original, db: string, row: Row, sem: Semantics): Truth
  {
    match ParseText(o.query, db)
    case None => Unknown
    case Some(e) => if |o.values| == Holes(e) then EvalExpr(e, o.values, row, sem) else Unknown
  }

  function MemberTokens(column: string): seq<Token>
  {
    [Hole, Word("MEMBER"), Word("OF"), LParen, Word(column), RParen]
  }

  function AnyMember(column: string, values: seq<Value>, row: Row, sem: Semantics): Truth
  {
    if values == [] then False
    else OrT(sem.native(MemberTokens(column), [values[0]], row), AnyMember(column, values[1..], row, sem))
  }

  function ExistsTokens(column: string, n: nat): seq<Token>
  {
    [Word("EXISTS"), LParen, Word("SELECT"), Word("1"), Word("FROM"), Word("json_each"), LParen, Word(column), RParen,
     Word("WHERE"), Word("value"), Word("IN")] + HoleList(n) + [RParen]
  }

  /** Membership as the database takes the query made for it; MEMBER OF is written for all but SQLite, and only MySQL has it. */
  function JsonTruth(c: Condition, env: Env, row: Row, sem: Semantics): Truth
  {
    if env.databaseType == "sqlite" then sem.native(ExistsTokens(c.column, |c.values|), c.values, row)
    else AnyMember(c.column, c.values, row, sem)
  }

  ghost function ItemTruth(c: Condition, env: Env, row: Row, sem: Semantics): Truth
    decreases c, 0
  {
    var op := ToLower(OperatorOrDefault(c));
    if c.inner != [] then GroupTruth(OrFlags(c.inner), ListTruth(c.inner, env, row, sem))
    else if c.original.Some? && c.original.value.query != "" then OriginalTruth(c.original.value, env.databaseType, row, sem)
    else if c.values != [] then
      if op == "jin" then JsonTruth(c, env, row, sem)
      else if op == "notin" then NotT(InTruth(Cell(row, c.column), c.values, sem))
      else InTruth(Cell(row, c.column), c.values, sem)
    else sem.compare(op, Cell(row, c.column), BoundValue(OperatorOrDefault(c), c.value))
  }

  ghost function ListTruth(cs: seq<Condition>, env: Env, row: Row, sem: Semantics): (r: seq<Truth>)
    ensures |r| == |cs|
    decreases cs, 0
  {
    if cs == [] then [] else [ItemTruth(cs[0], env, row, sem)] + ListTruth(cs[1..], env, row, sem)
  }

  // ---------------------------------------------------------------- what the program takes for granted

  predicate IsIdentifierChar(c: char) { 'a' <= c <= 'z' || 'A' <= c <= 'Z' || '0' <= c <= '9' || c == '_' }

  /** A column name: letters, digits and underscores, and not a connective word. */
  predicate IsIdentifier(s: string)
  {
    && s != ""
    && (forall k :: 0 <= k < |s| ==> IsIdentifierChar(s[k]))
    && Classify(s) == Word(s)
  }

  /** Hand-written SQL must be one boolean expression of the dialect with as many placeholders as values. */
  predicate WellWritten(o: Original, db: string)
  {
    ParseText(o.query, db).Some? && Holes(ParseText(o.query, db).value) == |o.values|
  }

  predicate WellWrittenItem(c: Condition, db: string)
    decreases c, 0
  {
    && (c.inner == [] && c.original.Some? ==> WellWritten(c.original.value, db))
    && WellWrittenList(c.inner, db)
  }

  predicate WellWrittenList(cs: seq<Condition>, db: string)
    decreases cs, 0
  {
    cs != [] ==> WellWrittenItem(cs[0], db) && WellWrittenList(cs[1..], db)
  }

  predicate IsSymbolic(connective: string) { connective == "&&" || connective == "||" }

  /** The symbols that join siblings, at every level; what stands before the first sibling joins nothing. */
  function SymbolJoins(cs: seq<Condition>, first: bool): nat
    decreases cs
  {
    if cs == [] then 0
    else (if !first && IsSymbolic(ConnectiveOrDefault(cs[0])) then 1 else 0) + SymbolJoins(cs[0].inner, true) + SymbolJoins(cs[1..], false)
  }

  /** No sibling is joined to the one before it by a symbol, at any level. */
  predicate JoinedByWords(cs: seq<Condition>)
    decreases cs
  {
    && (forall i :: 0 < i < |cs| ==> !IsSymbolic(ConnectiveOrDefault(cs[i])))
    && (forall i :: 0 <= i < |cs| ==> JoinedByWords(cs[i].inner))
  }

  predicate WordsAfter(cs: seq<Condition>, first: bool)
  {
    && (forall i :: 0 <= i < |cs| && (i > 0 || !first) ==> !IsSymbolic(ConnectiveOrDefault(cs[i])))
    && (forall i :: 0 <= i < |cs| ==> JoinedByWords(cs[i].inner))
  }

  lemma WordsUnfold(cs: seq<Condition>, first: bool)
    requires cs != []
    ensures WordsAfter(cs, first) <==>
              (first || !IsSymbolic(ConnectiveOrDefault(cs[0]))) && JoinedByWords(cs[0].inner) && WordsAfter(cs[1..], false)
  {
    hide IsSymbolic, ConnectiveOrDefault, JoinedByWords;
    assert cs == [cs[0]] + cs[1..];
    assert forall i :: 0 < i < |cs| ==> cs[i] == cs[1..][i - 1];
  }

  lemma {:induction false} NoSymbolJoins(cs: seq<Condition>, first: bool)
    ensures SymbolJoins(cs, first) == 0 <==> WordsAfter(cs, first)
    decreases cs
  {
    if cs != [] {
      NoSymbolJoins(cs[0].inner, true);
      assert WordsAfter(cs[0].inner, true) == JoinedByWords(cs[0].inner);
      NoSymbolJoins(cs[1..], false);
      WordsUnfold(cs, first);
      hide WordsAfter, JoinedByWords;
    }
  }

  predicate IdentifierColumns(env: Env)
  {
    forall c :: c in env.columns ==> IsIdentifier(c)
  }
}
