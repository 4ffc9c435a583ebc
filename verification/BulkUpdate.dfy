/**
 The bulk-update compiler: what a list of per-column assignments is compiled to, and what it asks of a
 table without mentioning SQL text.
 */
module BulkUpdate {
  import opened Text
  import opened SqlText
  import Conditions

  type Value = Conditions.Value

  /** A primary key as the caller passes it; only the plain integer zero means "skip this record". */
  datatype PrimaryKey = PlainInt(n: int) | OtherKey(v: Value)

  /** What the caller wants in a column, by the Go type it has. */
  datatype Cell =
    | Simple(v: Value)        // a string, number or boolean
    | Pointer(v: Value)       // a pointer to one
    | Nullable(v: Value)      // one of the sql.Null types
    | Encoded(json: string)   // a map, struct or slice, as the serializer writes it
    | Unencodable             // one that it cannot write
    | OtherKind               // a channel, function, array, ...
    | Absent                  // nil

  const ORIGIN: int := 1

  datatype Record = Record(pk: PrimaryKey, val: Cell, kind: int)

  datatype Default = Default(value: Value, kind: int)

  datatype Entry = Entry(column: string, def: Option<Default>, records: seq<Record>)

  datatype Error =
    | EmptyPrimaryKey
    | NoAllowedColumns
    | NoRecords
    | EncodingFailed
    | UnknownType(column: string)
    | ColumnNotAllowed(column: string)
    | NilValue   // a panic in the program: the type of a nil value is asked for

  datatype Result<+T> = Ok(value: T) | Err(error: Error)

  predicate Skipped(r: Record) { r.pk == PlainInt(0) }

  function KeyValue(pk: PrimaryKey): Value
  {
    match pk
    case PlainInt(n) => Conditions.Int(n)
    case OtherKey(v) => v
  }

  /** Raw SQL instead of a value. */
  predicate IsRaw(r: Record) { r.kind == ORIGIN && r.val.Simple? && r.val.v.Str? }

  function RawText(r: Record): string
    requires IsRaw(r)
  {
    r.val.v.s
  }

  /** The argument a value becomes. */
  function Argument(r: Record, column: string): Result<Value>
  {
    match r.val
    case Simple(v) => Ok(v)
    case Pointer(v) => Ok(v)
    case Nullable(v) => Ok(v)
    case Encoded(json) => Ok(Conditions.Str(json))
    case Unencodable => Err(EncodingFailed)
    case OtherKind => Err(UnknownType(column))
    case Absent => Err(NilValue)
  }

  // ---------------------------------------------------------------- text

  function WhenText(r: Record): string { "WHEN ? then " + (if IsRaw(r) then RawText(r) else "?") }

  function DefaultText(def: Option<Default>): string
  {
    match def
    case None => "''"
    case Some(d) => if d.kind == 0 then Conditions.Format(d.value) else "'" + Conditions.Format(d.value) + "'"
  }

  function Live(rs: seq<Record>): seq<Record>
  {
    if rs == [] then [] else (if Skipped(rs[0]) then [] else [rs[0]]) + Live(rs[1..])
  }

  function WhenTexts(rs: seq<Record>): seq<string>
  {
    if rs == [] then [] else [WhenText(rs[0])] + WhenTexts(rs[1..])
  }

  function Keys(rs: seq<Record>): seq<Value>
  {
    if rs == [] then [] else [KeyValue(rs[0].pk)] + Keys(rs[1..])
  }

  function ArmArguments(r: Record, column: string): Result<seq<Value>>
  {
    if IsRaw(r) then Ok([KeyValue(r.pk)])
    else
      match Argument(r, column)
      case Err(e) => Err(e)
      case Ok(v) => Ok([KeyValue(r.pk), v])
  }

  /** The arguments of one CASE, or the first error among its records. */
  function Arguments(rs: seq<Record>, column: string): Result<seq<Value>>
  {
    if rs == [] then Ok([])
    else
      match ArmArguments(rs[0], column)
      case Err(e) => Err(e)
      case Ok(a) =>
        match Arguments(rs[1..], column)
        case Err(e) => Err(e)
        case Ok(rest) => Ok(a + rest)
  }

  function CaseText(e: Entry, pk: string): string
  {
    "`" + e.column + "` = CASE `" + pk + "` " + Join(WhenTexts(Live(e.records)), " ") + " ELSE " + DefaultText(e.def) + " END"
  }

  function CaseTexts(es: seq<Entry>, pk: string): seq<string>
  {
    if es == [] then [] else [CaseText(es[0], pk)] + CaseTexts(es[1..], pk)
  }

  /** The keys of all columns, one after the other, with repetitions. */
  function AllKeys(es: seq<Entry>): seq<Value>
  {
    if es == [] then [] else Keys(Live(es[0].records)) + AllKeys(es[1..])
  }

  function EntryArguments(e: Entry, allowed: seq<string>): Result<seq<Value>>
  {
    match Arguments(Live(e.records), e.column)
    case Err(x) => Err(x)
    case Ok(a) => if e.column in allowed then Ok(a) else Err(ColumnNotAllowed(e.column))
  }

  function AllArguments(es: seq<Entry>, allowed: seq<string>): Result<seq<Value>>
  {
    if es == [] then Ok([])
    else
      match EntryArguments(es[0], allowed)
      case Err(x) => Err(x)
      case Ok(a) =>
        match AllArguments(es[1..], allowed)
        case Err(x) => Err(x)
        case Ok(rest) => Ok(a + rest)
  }

  function StatementText(table: string, pk: string, es: seq<Entry>): string
  {
    "UPDATE `" + table + "` SET " + Join(CaseTexts(es, pk), ", ")
    + " where `" + pk + "` in(" + Trim(Repeat("?, ", |AllKeys(es)|), ", ") + ")"
  }

  datatype Compiled = Compiled(text: string, args: seq<Value>)

  function Compile(table: string, primaryKey: string, allowed: seq<string>, es: seq<Entry>): Result<Compiled>
  {
    var pk := Trim(primaryKey, "`");
    if pk == "" then Err(EmptyPrimaryKey)
    else if allowed == [] then Err(NoAllowedColumns)
    else if es == [] then Err(NoRecords)
    else
      match AllArguments(es, allowed)
      case Err(x) => Err(x)
      case Ok(args) => Ok(Compiled(StatementText(table, pk, es), args + AllKeys(es)))
  }

  // ---------------------------------------------------------------- meaning

  type Row = map<string, Value>

  /** How the database evaluates SQL that is not a placeholder or a plain literal. */
  type Native = (seq<Token>, Row) -> Value

  /** Literals have their value; everything else is the database's business. */
  function EvalTokens(ts: seq<Token>, row: Row, native: Native): Value
  {
    if |ts| == 1 && ts[0].Quoted? && ts[0].open == '\'' then Conditions.Str(ts[0].body)
    else if |ts| == 1 && ts[0].Word? && ParseInt(ts[0].text).Some? then Conditions.Int(ParseInt(ts[0].text).value)
    else native(ts, row)
  }

  function TokensOf(text: string): seq<Token> { if Tokenize(text).Some? then Tokenize(text).value else [] }

  /** What a record puts into its column of a row. */
  function RecordValue(r: Record, row: Row, native: Native): Value
  {
    if IsRaw(r) then EvalTokens(TokensOf(RawText(r)), row, native)
    else if Argument(r, "").Ok? then Argument(r, "").value else Conditions.Nil
  }

  function DefaultValue(def: Option<Default>, row: Row, native: Native): Value
  {
    EvalTokens(TokensOf(DefaultText(def)), row, native)
  }

  /** The first record for a key, or the number of records when there is none. */
  function FirstFor(rs: seq<Record>, key: Value): (i: nat)
    ensures i <= |rs|
    ensures i < |rs| ==> KeyValue(rs[i].pk) == key
    ensures forall j :: 0 <= j < i ==> KeyValue(rs[j].pk) != key
  {
    if rs == [] || KeyValue(rs[0].pk) == key then 0 else 1 + FirstFor(rs[1..], key)
  }

  /** A row that the statement covers gets every column's first matching value, or that column's default. */
  function Updated(es: seq<Entry>, pk: string, row: Row, native: Native): Row
    requires pk in row
  {
    if es == [] then row
    else
      var rs, i := Live(es[0].records), FirstFor(Live(es[0].records), row[pk]);
      var v := if i < |rs| then RecordValue(rs[i], row, native) else DefaultValue(es[0].def, row, native);
      Updated(es[1..], pk, row[es[0].column := v], native)
  }

  function RowAfter(es: seq<Entry>, pk: string, row: Row, native: Native): Row
    requires pk in row
  {
    if row[pk] in AllKeys(es) then Updated(es, pk, row, native) else row
  }

  /** One assignment on its own: the row with that key gets that value. */
  function Assign(r: Record, column: string, pk: string, row: Row, native: Native): Row
    requires pk in row
  {
    if row[pk] == KeyValue(r.pk) then row[column := RecordValue(r, row, native)] else row
  }

  function AssignAll(rs: seq<Record>, column: string, pk: string, row: Row, native: Native): (r: Row)
    requires pk in row
    ensures pk in r
  {
    if rs == [] then row else AssignAll(rs[1..], column, pk, Assign(rs[0], column, pk, row, native), native)
  }

  /** All assignments, one by one, column after column. */
  function OneByOne(es: seq<Entry>, pk: string, row: Row, native: Native): Row
    requires pk in row
  {
    if es == [] then row
    else OneByOne(es[1..], pk, AssignAll(Live(es[0].records), es[0].column, pk, row, native), native)
  }
}
