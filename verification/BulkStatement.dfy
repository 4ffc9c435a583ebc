/**
 A reader and an evaluator for UPDATE statements whose assignments are CASE expressions over a key,
 written without looking at the compiler. Arguments are bound to placeholders from left to right, and
 assignments take effect from left to right.
 */
module BulkStatement {
  import opened Text
  import opened SqlText
  import Conditions
  import opened BulkUpdate

  datatype Operand = Bound(v: Value) | Sql(tokens: seq<Token>)

  datatype Arm = Arm(key: Value, value: Operand)

  datatype Assignment = Assignment(column: string, on: string, arms: seq<Arm>, otherwise: Operand)

  datatype Statement = Statement(table: string, sets: seq<Assignment>, keyColumn: string, keys: seq<Value>)

  /** What has been read, the tokens after it, and the arguments not yet bound. */
  datatype Read<+T> = Read(value: T, rest: seq<Token>, args: seq<Value>)

  predicate Keyword(t: Token, word: string) { t.Word? && ToLower(t.text) == word }

  predicate Stops(t: Token) { Keyword(t, "when") || Keyword(t, "else") || Keyword(t, "end") }

  /** How many tokens an operand has: up to the WHEN, ELSE or END of the CASE it is in. */
  function OperandLength(ts: seq<Token>, depth: nat): (n: nat)
    ensures n <= |ts|
  {
    if ts == [] || (depth == 0 && Stops(ts[0])) then 0
    else
      var next := if Keyword(ts[0], "case") then depth + 1 else if depth > 0 && Keyword(ts[0], "end") then depth - 1 else depth;
      1 + OperandLength(ts[1..], next)
  }

  function ReadOperand(ts: seq<Token>, args: seq<Value>): (r: Option<Read<Operand>>)
    ensures r.Some? ==> |r.value.rest| < |ts|
  {
    var n := OperandLength(ts, 0);
    var e := ts[..n];
    if n == 0 then None
    else if e == [Hole] then (if args == [] then None else Some(Read(Bound(args[0]), ts[n..], args[1..])))
    else if HasHole(e) then None
    else Some(Read(Sql(e), ts[n..], args))
  }

  predicate HasHole(ts: seq<Token>) { exists i :: 0 <= i < |ts| && ts[i] == Hole }

  function ReadArm(ts: seq<Token>, args: seq<Value>): (r: Option<Read<Arm>>)
    ensures r.Some? ==> |r.value.rest| < |ts|
  {
    if |ts| >= 3 && Keyword(ts[0], "when") && ts[1] == Hole && args != [] && Keyword(ts[2], "then") then
      match ReadOperand(ts[3..], args[1..])
      case None => None
      case Some(x) => Some(Read(Arm(args[0], x.value), x.rest, x.args))
    else None
  }

  function ReadArms(ts: seq<Token>, args: seq<Value>): (r: Option<Read<seq<Arm>>>)
    ensures r.Some? ==> |r.value.rest| <= |ts|
    decreases |ts|
  {
    if ts == [] || !Keyword(ts[0], "when") then Some(Read([], ts, args))
    else
      match ReadArm(ts, args)
      case None => None
      case Some(a) =>
        match ReadArms(a.rest, a.args)
        case None => None
        case Some(more) => Some(Read([a.value] + more.value, more.rest, more.args))
  }

  /** `column` = CASE `key` arms ELSE operand END, with at least one arm. */
  function ReadAssignment(ts: seq<Token>, args: seq<Value>): (r: Option<Read<Assignment>>)
    ensures r.Some? ==> |r.value.rest| < |ts|
  {
    if |ts| >= 4 && ts[0].Quoted? && Keyword(ts[1], "=") && Keyword(ts[2], "case") && ts[3].Quoted? then
      match ReadArms(ts[4..], args)
      case None => None
      case Some(arms) =>
        if arms.value == [] || arms.rest == [] || !Keyword(arms.rest[0], "else") then None
        else
          match ReadOperand(arms.rest[1..], arms.args)
          case None => None
          case Some(e) =>
            if e.rest == [] || !Keyword(e.rest[0], "end") then None
            else Some(Read(Assignment(ts[0].body, ts[3].body, arms.value, e.value), e.rest[1..], e.args))
    else None
  }

  function ReadSets(ts: seq<Token>, args: seq<Value>): (r: Option<Read<seq<Assignment>>>)
    ensures r.Some? ==> |r.value.rest| < |ts|
    decreases |ts|
  {
    match ReadAssignment(ts, args)
    case None => None
    case Some(a) =>
      if a.rest == [] || a.rest[0] != Comma then Some(Read([a.value], a.rest, a.args))
      else
        match ReadSets(a.rest[1..], a.args)
        case None => None
        case Some(more) => Some(Read([a.value] + more.value, more.rest, more.args))
  }

  /** One or more placeholders, separated by commas and closed by a parenthesis, then nothing. */
  function ReadKeys(ts: seq<Token>, args: seq<Value>): Option<seq<Value>>
  {
    if |ts| < 2 || ts[0] != Hole || args == [] then None
    else if ts[1] == RParen then (if |ts| == 2 && |args| == 1 then Some(args) else None)
    else if ts[1] == Comma then
      match ReadKeys(ts[2..], args[1..])
      case None => None
      case Some(more) => Some([args[0]] + more)
    else None
  }

  function ReadStatement(ts: seq<Token>, args: seq<Value>): Option<Statement>
  {
    if |ts| >= 3 && Keyword(ts[0], "update") && ts[1].Quoted? && Keyword(ts[2], "set") then
      match ReadSets(ts[3..], args)
      case None => None
      case Some(sets) =>
        var t := sets.rest;
        if |t| >= 4 && Keyword(t[0], "where") && t[1].Quoted? && Keyword(t[2], "in") && t[3] == LParen then
          match ReadKeys(t[4..], sets.args)
          case None => None
          case Some(keys) => Some(Statement(ts[1].body, sets.value, t[1].body, keys))
        else None
    else None
  }

  function ReadText(text: string, args: seq<Value>): Option<Statement>
  {
    match Tokenize(text)
    case None => None
    case Some(ts) => ReadStatement(ts, args)
  }

  // ---------------------------------------------------------------- evaluation

  function EvalOperand(e: Operand, row: Row, native: Native): Value
  {
    match e
    case Bound(v) => v
    case Sql(ts) => EvalTokens(ts, row, native)
  }

  function EvalArms(arms: seq<Arm>, otherwise: Operand, key: Value, row: Row, native: Native): Value
  {
    if arms == [] then EvalOperand(otherwise, row, native)
    else if arms[0].key == key then EvalOperand(arms[0].value, row, native)
    else EvalArms(arms[1..], otherwise, key, row, native)
  }

  /** A row that does not have the column a CASE looks at is left alone. */
  function ExecuteSets(sets: seq<Assignment>, row: Row, native: Native): Row
  {
    if sets == [] then row
    else
      var a := sets[0];
      var row := if a.on in row then row[a.column := EvalArms(a.arms, a.otherwise, row[a.on], row, native)] else row;
      ExecuteSets(sets[1..], row, native)
  }

  function ExecuteRow(s: Statement, row: Row, native: Native): Row
  {
    if s.keyColumn in row && row[s.keyColumn] in s.keys then ExecuteSets(s.sets, row, native) else row
  }

  function Execute(s: Statement, table: seq<Row>, native: Native): (r: seq<Row>)
    ensures |r| == |table| && forall i :: 0 <= i < |table| ==> r[i] == ExecuteRow(s, table[i], native)
  {
    seq(|table|, i requires 0 <= i < |table| => ExecuteRow(s, table[i], native))
  }
}
