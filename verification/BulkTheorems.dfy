/** What executing a compiled bulk update does to a table. */
module BulkTheorems {
  import opened Text
  import opened SqlText
  import Conditions
  import opened BulkUpdate
  import opened BulkStatement
  import opened BulkReading
  import opened BulkParsing

  // ---------------------------------------------------------------- what is accepted

  /** Raw SQL, or a value that becomes an argument. */
  predicate Encodable(r: Record) { IsRaw(r) || r.val.Simple? || r.val.Pointer? || r.val.Nullable? || r.val.Encoded? }

  predicate GoodColumn(e: Entry, allowed: seq<string>)
  {
    e.column in allowed && forall j :: 0 <= j < |e.records| ==> Skipped(e.records[j]) || Encodable(e.records[j])
  }

  lemma {:induction false} RecordsAccepted(rs: seq<Record>, column: string)
    ensures Arguments(Live(rs), column).Ok? <==> forall j :: 0 <= j < |rs| ==> Skipped(rs[j]) || Encodable(rs[j])
  {
    if rs != [] {
      RecordsAccepted(rs[1..], column);
      assert rs == [rs[0]] + rs[1..];
      if !Skipped(rs[0]) {
        assert Live(rs)[1..] == Live(rs[1..]);
      } else {
        assert Live(rs) == Live(rs[1..]);
      }
    }
  }

  lemma {:induction false} EntriesAccepted(es: seq<Entry>, allowed: seq<string>)
    ensures AllArguments(es, allowed).Ok? <==> forall i :: 0 <= i < |es| ==> GoodColumn(es[i], allowed)
  {
    hide Arguments, Skipped, Encodable, Live;
    if es != [] {
      RecordsAccepted(es[0].records, es[0].column);
      EntriesAccepted(es[1..], allowed);
      assert es == [es[0]] + es[1..];
    }
  }

  /**
   An update is compiled if and only if there is a key column, an allowed column and an entry, and every entry
   is for an allowed column and has only records that are skipped, raw SQL, or values that can be encoded.
   */
  lemma CompilesExactly(table: string, primaryKey: string, allowed: seq<string>, es: seq<Entry>)
    ensures Compile(table, primaryKey, allowed, es).Ok? <==>
              Trim(primaryKey, "`") != "" && allowed != [] && es != [] && forall i :: 0 <= i < |es| ==> GoodColumn(es[i], allowed)
  {
    hide GoodColumn, StatementText;
    EntriesAccepted(es, allowed);
  }

  /** What is wrong with a record that is neither skipped nor encodable. */
  predicate RecordFault(r: Record, column: string, x: Error)
  {
    !Skipped(r) && !IsRaw(r) &&
      ((r.val.Unencodable? && x == EncodingFailed) || (r.val.OtherKind? && x == UnknownType(column)) || (r.val.Absent? && x == NilValue))
  }

  predicate Taken(r: Record) { Skipped(r) || Encodable(r) }

  predicate FirstRecordFault(rs: seq<Record>, column: string, x: Error)
  {
    exists j :: 0 <= j < |rs| && RecordFault(rs[j], column, x) && forall k :: 0 <= k < j ==> Taken(rs[k])
  }

  /** An entry fails with the fault of its first bad record, or else because its column is not allowed. */
  predicate EntryFault(e: Entry, allowed: seq<string>, x: Error)
  {
    || FirstRecordFault(e.records, e.column, x)
    || ((forall j :: 0 <= j < |e.records| ==> Taken(e.records[j])) && e.column !in allowed && x == ColumnNotAllowed(e.column))
  }

  predicate FirstEntryFault(es: seq<Entry>, allowed: seq<string>, x: Error)
  {
    exists i :: 0 <= i < |es| && EntryFault(es[i], allowed, x) && forall k :: 0 <= k < i ==> GoodColumn(es[k], allowed)
  }

  lemma RecordFaultStep(rs: seq<Record>, column: string, x: Error)
    requires rs != []
    ensures FirstRecordFault(rs, column, x) <==> RecordFault(rs[0], column, x) || (Taken(rs[0]) && FirstRecordFault(rs[1..], column, x))
  {
    hide RecordFault, Taken;
    if j :| 0 <= j < |rs| && RecordFault(rs[j], column, x) && forall k :: 0 <= k < j ==> Taken(rs[k]) {
      assert j > 0 ==> rs[1..][j - 1] == rs[j] && forall k :: 0 <= k < j - 1 ==> rs[1..][k] == rs[k + 1];
    }
    if Taken(rs[0]) && FirstRecordFault(rs[1..], column, x) {
      var j :| 0 <= j < |rs[1..]| && RecordFault(rs[1..][j], column, x) && forall k :: 0 <= k < j ==> Taken(rs[1..][k]);
      assert rs[j + 1] == rs[1..][j] && forall k :: 0 < k < j + 1 ==> rs[k] == rs[1..][k - 1];
    }
  }

  lemma {:induction false} RecordsRefused(rs: seq<Record>, column: string, x: Error)
    ensures Arguments(Live(rs), column) == Err(x) <==> FirstRecordFault(rs, column, x)
  {
    if rs != [] {
      RecordsRefused(rs[1..], column, x);
      RecordFaultStep(rs, column, x);
      hide FirstRecordFault;
      if Skipped(rs[0]) {
        assert Live(rs) == Live(rs[1..]);
      } else {
        assert Live(rs)[1..] == Live(rs[1..]);
      }
    }
  }

  lemma EntryRefused(e: Entry, allowed: seq<string>, x: Error)
    ensures EntryArguments(e, allowed) == Err(x) <==> EntryFault(e, allowed, x)
    ensures EntryArguments(e, allowed).Ok? <==> GoodColumn(e, allowed)
  {
    hide Arguments, FirstRecordFault, Skipped, Encodable, Live;
    RecordsRefused(e.records, e.column, x);
    RecordsAccepted(e.records, e.column);
  }

  lemma EntryFaultStep(es: seq<Entry>, allowed: seq<string>, x: Error)
    requires es != []
    ensures FirstEntryFault(es, allowed, x)
       <==> EntryFault(es[0], allowed, x) || (GoodColumn(es[0], allowed) && FirstEntryFault(es[1..], allowed, x))
  {
    hide EntryFault, GoodColumn;
    if i :| 0 <= i < |es| && EntryFault(es[i], allowed, x) && forall k :: 0 <= k < i ==> GoodColumn(es[k], allowed) {
      assert i > 0 ==> es[1..][i - 1] == es[i] && forall k :: 0 <= k < i - 1 ==> es[1..][k] == es[k + 1];
    }
    if GoodColumn(es[0], allowed) && FirstEntryFault(es[1..], allowed, x) {
      var i :| 0 <= i < |es[1..]| && EntryFault(es[1..][i], allowed, x) && forall k :: 0 <= k < i ==> GoodColumn(es[1..][k], allowed);
      assert es[i + 1] == es[1..][i] && forall k :: 0 < k < i + 1 ==> es[k] == es[1..][k - 1];
    }
  }

  lemma {:induction false} EntriesRefused(es: seq<Entry>, allowed: seq<string>, x: Error)
    ensures AllArguments(es, allowed) == Err(x) <==> FirstEntryFault(es, allowed, x)
  {
    if es != [] {
      hide EntryArguments, EntryFault, GoodColumn, FirstEntryFault;
      EntryRefused(es[0], allowed, x);
      EntryFaultStep(es, allowed, x);
      EntriesRefused(es[1..], allowed, x);
    }
  }

  /** Which error an update answers: the key's, the columns', the entries', or that of the first entry that fails. */
  lemma RefusedExactly(table: string, primaryKey: string, allowed: seq<string>, es: seq<Entry>, x: Error)
    ensures Compile(table, primaryKey, allowed, es) == Err(x) <==>
              if Trim(primaryKey, "`") == "" then x == EmptyPrimaryKey
              else if allowed == [] then x == NoAllowedColumns
              else if es == [] then x == NoRecords
              else FirstEntryFault(es, allowed, x)
  {
    hide FirstEntryFault, StatementText;
    EntriesRefused(es, allowed, x);
  }

  // ---------------------------------------------------------------- the statement on a row

  lemma {:induction false} ArmsChooseFirst(rs: seq<Record>, otherwise: Operand, key: Value, row: Row, native: Native)
    ensures
      var i := FirstFor(rs, key);
      EvalArms(ArmsOf(rs), otherwise, key, row, native) ==
      if i < |rs| then RecordValue(rs[i], row, native) else EvalOperand(otherwise, row, native)
  {
    if rs != [] && KeyValue(rs[0].pk) != key {
      ArmsChooseFirst(rs[1..], otherwise, key, row, native);
      assert ArmsOf(rs)[1..] == ArmsOf(rs[1..]);
    }
  }

  lemma {:induction false} SetsUpdate(es: seq<Entry>, pk: string, row: Row, native: Native)
    requires pk in row
    ensures ExecuteSets(SetsOf(es, pk), row, native) == Updated(es, pk, row, native)
  {
    if es != [] {
      var a := AssignmentOf(es[0], pk);
      ArmsChooseFirst(Live(es[0].records), a.otherwise, row[pk], row, native);
      assert SetsOf(es, pk)[0] == a && SetsOf(es, pk)[1..] == SetsOf(es[1..], pk);
      SetsUpdate(es[1..], pk, row[a.column := EvalArms(a.arms, a.otherwise, row[pk], row, native)], native);
    }
  }

  /** Executing the compiled statement changes every row as the entries say. */
  lemma ExecutedAsMeant(table: string, primaryKey: string, allowed: seq<string>, es: seq<Entry>, rows: seq<Row>, native: Native, i: nat)
    requires Compile(table, primaryKey, allowed, es).Ok?
    requires Name(table) && Name(Trim(primaryKey, "`")) && GoodEntries(es) && AllLive(es)
    requires i < |rows| && Trim(primaryKey, "`") in rows[i]
    ensures
      var c, pk := Compile(table, primaryKey, allowed, es).value, Trim(primaryKey, "`");
      var s := ReadText(c.text, c.args);
      && s.Some? && s.value.table == table
      && |Execute(s.value, rows, native)| == |rows|
      && Execute(s.value, rows, native)[i] == RowAfter(es, pk, rows[i], native)
  {
    hide Compile, ReadText, GoodEntries;
    CompiledIsRead(table, primaryKey, allowed, es);
    SetsUpdate(es, Trim(primaryKey, "`"), rows[i], native);
  }

  // ---------------------------------------------------------------- one column of one row

  /** The columns are different ones, and none of them is the key. */
  predicate SeparateColumns(es: seq<Entry>, pk: string)
  {
    forall i :: 0 <= i < |es| ==> es[i].column != pk && forall j :: 0 <= j < i ==> es[i].column != es[j].column
  }

  lemma {:induction false} OtherColumnsStay(es: seq<Entry>, pk: string, row: Row, native: Native, column: string)
    requires pk in row && column in row && forall i :: 0 <= i < |es| ==> es[i].column != column
    ensures var r := Updated(es, pk, row, native); column in r && r[column] == row[column]
  {
    if es != [] {
      var rs, i := Live(es[0].records), FirstFor(Live(es[0].records), row[pk]);
      var v := if i < |rs| then RecordValue(rs[i], row, native) else DefaultValue(es[0].def, row, native);
      OtherColumnsStay(es[1..], pk, row[es[0].column := v], native, column);
    }
  }

  /** A value that does not depend on the row. */
  predicate Fixed(r: Record) { !IsRaw(r) }

  /**
   In a row that the statement covers, a column takes the value of the first of its records for that
   row's key; without such a record it takes its default, whatever it held before.
   */
  lemma {:induction false} ColumnAfter(es: seq<Entry>, pk: string, row: Row, native: Native, j: nat)
    requires pk in row && SeparateColumns(es, pk) && j < |es|
    ensures
      var r, rs := Updated(es, pk, row, native), Live(es[j].records);
      var i := FirstFor(rs, row[pk]);
      && es[j].column in r
      && (i < |rs| && Fixed(rs[i]) ==> r[es[j].column] == RecordValue(rs[i], row, native))
      && (i == |rs| && FixedDefault(es[j].def) ==> r[es[j].column] == DefaultValue(es[j].def, row, native))
  {
    hide RecordValue, DefaultValue, FixedDefault;
    var rs, i := Live(es[0].records), FirstFor(Live(es[0].records), row[pk]);
    var v := if i < |rs| then RecordValue(rs[i], row, native) else DefaultValue(es[0].def, row, native);
    var next := row[es[0].column := v];
    assert SeparateColumns(es[1..], pk) by {
      assert forall k :: 0 <= k < |es[1..]| ==> es[1..][k] == es[k + 1];
    }
    if j == 0 {
      assert forall k :: 0 <= k < |es[1..]| ==> es[1..][k].column == es[k + 1].column != es[0].column;
      OtherColumnsStay(es[1..], pk, next, native, es[0].column);
    } else {
      ColumnAfter(es[1..], pk, next, native, j - 1);
      assert es[0].column != pk;
      RecordsIgnoreRow(Live(es[j].records), row, next, native);
      if FixedDefault(es[j].def) {
        DefaultsIgnoreRow(es[j].def, row, next, native);
      }
    }
  }

  lemma RecordsIgnoreRow(rs: seq<Record>, row: Row, other: Row, native: Native)
    ensures forall i :: 0 <= i < |rs| && Fixed(rs[i]) ==> RecordValue(rs[i], row, native) == RecordValue(rs[i], other, native)
  {
  }

  /** A text that stands for itself between quotes: no quote, and no backslash, which MySQL takes as an escape. */
  predicate StandsForItself(text: string) { '\'' !in text && '\\' !in text }

  /** Where MySQL ends the literal whose opening quote stands before s: the length of s when it stays open. */
  function LiteralEnd(s: string): (k: nat)
    ensures k <= |s|
  {
    if s == "" then 0
    else if s[0] == '\\' then (if |s| == 1 then 1 else 2 + LiteralEnd(s[2..]))
    else if s[0] != '\'' then 1 + LiteralEnd(s[1..])
    else if |s| > 1 && s[1] == '\'' then 2 + LiteralEnd(s[2..])
    else 0
  }

  lemma {:induction false} LiteralOf(body: string, rest: string)
    requires StandsForItself(body)
    ensures LiteralEnd(body + rest) == |body| + LiteralEnd(rest)
  {
    if body == "" {
      assert body + rest == rest;
    } else {
      LiteralOf(body[1..], rest);
      assert (body + rest)[1..] == body[1..] + rest;
    }
  }

  /** The quoted default of a text that ends in a backslash is a literal that MySQL does not end. */
  lemma BackslashLeavesOpen(body: string)
    requires StandsForItself(body)
    ensures var written := DefaultText(Some(Default(Conditions.Str(body + "\\"), 1)));
            LiteralEnd(written[1..]) == |written[1..]|
  {
    LiteralOf(body, "\\'");
    var written := DefaultText(Some(Default(Conditions.Str(body + "\\"), 1)));
    assert written[1..] == body + "\\'";
  }

  /** A default that is a plain literal. */
  predicate FixedDefault(def: Option<Default>)
  {
    match def
    case None => true
    case Some(d) => if d.kind == 0 then d.value.Int? && IsInt64(d.value.n) else StandsForItself(Conditions.Format(d.value))
  }

  function LiteralDefault(def: Option<Default>): Value
  {
    match def
    case None => Conditions.Str("")
    case Some(d) => if d.kind == 0 then d.value else Conditions.Str(Conditions.Format(d.value))
  }

  /**
   A missing default is the empty string, a number is itself, and anything else is its text, to the reader
   here and to MySQL, which ends the literal at its last quote.
   */
  lemma DefaultIsLiteral(def: Option<Default>, row: Row, native: Native)
    requires FixedDefault(def)
    ensures DefaultValue(def, row, native) == LiteralDefault(def)
    ensures OperandText(DefaultText(def))
    ensures LiteralDefault(def).Str? && (def.None? || def.value.kind != 0) ==>
              LiteralEnd(DefaultText(def)[1..]) == |DefaultText(def)| - 2 == |LiteralDefault(def).s|
  {
    hide Tokenize, Closed, HasHole;
    TokenizeNothing();
    match def
    case None =>
      QuotedDefault("");
      QuotedEnd("");
      assert "''" == "'" + "" + "'";
    case Some(d) =>
      if d.kind == 0 {
        NumberDefault(d.value.n);
      } else {
        QuotedDefault(Conditions.Format(d.value));
        QuotedEnd(Conditions.Format(d.value));
      }
  }

  lemma QuotedDefault(body: string)
    requires StandsForItself(body)
    ensures Tokenize("'" + body + "'") == Some([Quoted('\'', body)]) && OperandText("'" + body + "'")
  {
    hide StandsForItself, Closed, HasHole;
    assert '\'' !in body by { NoQuote(body); }
    TokenizeNothing();
    TokenizeQuoted('\'', body, "");
    assert "'" + body + "'" == ['\''] + body + ['\''] + "";
    assert [Quoted('\'', body)] + [] == [Quoted('\'', body)];
    LoneToken(Quoted('\'', body));
  }

  lemma NoQuote(body: string)
    requires StandsForItself(body)
    ensures '\'' !in body
  {
  }

  lemma QuotedEnd(body: string)
    requires StandsForItself(body)
    ensures ("'" + body + "'")[1..] == body + "'" && LiteralEnd(body + "'") == |body|
  {
    hide LiteralEnd, StandsForItself;
    LoneQuote();
    LiteralOf(body, "'");
    assert "'" + body + "'" == "'" + (body + "'");
  }

  lemma LoneQuote()
    ensures LiteralEnd("'") == 0
  {
  }

  lemma NumberDefault(n: int)
    requires IsInt64(n)
    ensures Tokenize(Show(n)) == Some([Word(Show(n))]) && OperandText(Show(n)) && ParseInt(Show(n)) == Some(n)
  {
    var s := Show(n);
    TokenizeNothing();
    ParseShow(n);
    NumberWord(n);
    TokenizeWord(s, "");
    assert s + "" == s && [Word(s)] + [] == [Word(s)];
    LoneToken(Word(s));
  }

  lemma NumberWord(n: int)
    ensures Classify(Show(n)) == Word(Show(n)) && forall k :: 0 <= k < |Show(n)| ==> IsWordChar(Show(n)[k])
    ensures !Stops(Word(Show(n))) && !Keyword(Word(Show(n)), "case")
  {
    var s := Show(n);
    assert ToLower(s)[0] == LowerChar(s[0]) == s[0];
  }

  lemma LoneToken(t: Token)
    requires t != Hole && !Stops(t) && !Keyword(t, "case")
    ensures Closed([t], 0) && !HasHole([t])
  {
    assert [t][1..] == [] && Closed([], 0);
  }

  lemma DefaultsIgnoreRow(def: Option<Default>, row: Row, other: Row, native: Native)
    requires FixedDefault(def)
    ensures DefaultValue(def, row, native) == DefaultValue(def, other, native)
  {
    hide DefaultValue;
    DefaultIsLiteral(def, row, native);
    DefaultIsLiteral(def, other, native);
  }

  // ---------------------------------------------------------------- assignment by assignment

  predicate DistinctKeys(rs: seq<Record>)
  {
    forall i, j :: 0 <= i < j < |rs| ==> KeyValue(rs[i].pk) != KeyValue(rs[j].pk)
  }

  /** All columns list the same keys, each once. */
  ghost predicate SameKeys(es: seq<Entry>)
  {
    && (forall i :: 0 <= i < |es| ==> DistinctKeys(Live(es[i].records)))
    && (forall i, j, v :: 0 <= i < |es| && 0 <= j < |es| ==>
                            FirstFor(Live(es[i].records), v) < |Live(es[i].records)| ==> FirstFor(Live(es[j].records), v) < |Live(es[j].records)|)
  }

  lemma {:induction false} AssignAllIsFirst(rs: seq<Record>, column: string, pk: string, row: Row, native: Native)
    requires pk in row && column != pk && DistinctKeys(rs)
    ensures
      var i := FirstFor(rs, row[pk]);
      AssignAll(rs, column, pk, row, native) == if i < |rs| then row[column := RecordValue(rs[i], row, native)] else row
  {
    hide RecordValue;
    if rs != [] {
      var next := Assign(rs[0], column, pk, row, native);
      AssignAllIsFirst(rs[1..], column, pk, next, native);
      if KeyValue(rs[0].pk) == row[pk] {
        assert forall k :: 0 <= k < |rs[1..]| ==> KeyValue(rs[1..][k].pk) == KeyValue(rs[k + 1].pk) != row[pk];
      }
    }
  }

  lemma {:induction false} KeysFound(rs: seq<Record>, v: Value)
    ensures v in Keys(rs) <==> FirstFor(rs, v) < |rs|
  {
    if rs != [] {
      KeysFound(rs[1..], v);
    }
  }

  lemma {:induction false} AllKeysFound(es: seq<Entry>, v: Value)
    ensures v in AllKeys(es) <==> exists i :: 0 <= i < |es| && FirstFor(Live(es[i].records), v) < |Live(es[i].records)|
  {
    if es != [] {
      KeysFound(Live(es[0].records), v);
      AllKeysFound(es[1..], v);
      assert forall i :: 0 <= i < |es[1..]| ==> es[1..][i] == es[i + 1];
      if exists i :: 0 <= i < |es| && FirstFor(Live(es[i].records), v) < |Live(es[i].records)| {
        var i :| 0 <= i < |es| && FirstFor(Live(es[i].records), v) < |Live(es[i].records)|;
        assert i > 0 ==> es[i] == es[1..][i - 1];
      }
    }
  }

  /** Every column has a record for the key, or none has. */
  ghost predicate Covered(es: seq<Entry>, v: Value, yes: bool)
  {
    forall i :: 0 <= i < |es| ==> DistinctKeys(Live(es[i].records)) && (FirstFor(Live(es[i].records), v) < |Live(es[i].records)| <==> yes)
  }

  lemma {:induction false} CoveredOneByOne(es: seq<Entry>, pk: string, row: Row, native: Native, yes: bool)
    requires pk in row && Covered(es, row[pk], yes) && forall i :: 0 <= i < |es| ==> es[i].column != pk
    ensures OneByOne(es, pk, row, native) == if yes then Updated(es, pk, row, native) else row
  {
    hide RecordValue, DefaultValue;
    if es != [] {
      var next := AssignAll(Live(es[0].records), es[0].column, pk, row, native);
      AssignAllIsFirst(Live(es[0].records), es[0].column, pk, row, native);
      assert forall i :: 0 <= i < |es[1..]| ==> es[1..][i] == es[i + 1];
      CoveredOneByOne(es[1..], pk, next, native, yes);
    }
  }

  /**
   When all columns list the same keys, each once, and none is the key itself, executing the statement is
   the same as making every assignment on its own.
   */
  lemma ExecutedOneByOne(table: string, primaryKey: string, allowed: seq<string>, es: seq<Entry>, rows: seq<Row>, native: Native, i: nat)
    requires Compile(table, primaryKey, allowed, es).Ok?
    requires Name(table) && Name(Trim(primaryKey, "`")) && GoodEntries(es) && AllLive(es) && SameKeys(es)
    requires forall j :: 0 <= j < |es| ==> es[j].column != Trim(primaryKey, "`")
    requires i < |rows| && Trim(primaryKey, "`") in rows[i]
    ensures
      var c, pk := Compile(table, primaryKey, allowed, es).value, Trim(primaryKey, "`");
      var s := ReadText(c.text, c.args);
      s.Some? && |Execute(s.value, rows, native)| == |rows| && Execute(s.value, rows, native)[i] == OneByOne(es, pk, rows[i], native)
  {
    hide ReadText, Compile, GoodEntries, AllLive, FirstFor;
    var pk := Trim(primaryKey, "`");
    var row, v := rows[i], rows[i][pk];
    ExecutedAsMeant(table, primaryKey, allowed, es, rows, native, i);
    AllKeysFound(es, v);
    CoveredOneByOne(es, pk, row, native, v in AllKeys(es));
  }

  // ---------------------------------------------------------------- exactly when the two are the same

  /** The last record for a key, or the number of records when there is none. */
  function LastFor(rs: seq<Record>, key: Value): (i: nat)
    ensures i <= |rs|
    ensures i < |rs| <==> FirstFor(rs, key) < |rs|
    ensures i < |rs| ==> KeyValue(rs[i].pk) == key
    ensures forall j :: i < j < |rs| ==> KeyValue(rs[j].pk) != key
  {
    if rs == [] then 0
    else
      var i := LastFor(rs[1..], key);
      if i < |rs| - 1 || KeyValue(rs[0].pk) != key then i + 1 else 0
  }

  /** Different columns, none of them the key, and values and defaults that do not depend on the row. */
  predicate Plain(es: seq<Entry>, pk: string)
  {
    && SeparateColumns(es, pk)
    && forall i :: 0 <= i < |es| ==>
         FixedDefault(es[i].def) && forall j :: 0 <= j < |Live(es[i].records)| ==> Fixed(Live(es[i].records)[j])
  }

  /** What a row holds in a column, if it has that column. */
  function Held(row: Row, column: string): Option<Value> { if column in row then Some(row[column]) else None }

  lemma SameRow(a: Row, b: Row)
    ensures a == b <==> forall c :: Held(a, c) == Held(b, c)
  {
    if forall c :: Held(a, c) == Held(b, c) {
      forall c ensures (c in a <==> c in b) && (c in a ==> a[c] == b[c]) {
        assert Held(a, c) == Held(b, c);
      }
    }
  }

  /** Of the assignments to one column of a row, the last one stays. */
  lemma {:induction false} AssignAllIsLast(rs: seq<Record>, column: string, pk: string, row: Row, native: Native)
    requires pk in row && column != pk && forall j :: 0 <= j < |rs| ==> Fixed(rs[j])
    ensures
      var i := LastFor(rs, row[pk]);
      AssignAll(rs, column, pk, row, native) == if i < |rs| then row[column := RecordValue(rs[i], row, native)] else row
  {
    hide RecordValue;
    if rs != [] {
      var next := Assign(rs[0], column, pk, row, native);
      AssignAllIsLast(rs[1..], column, pk, next, native);
      RecordsIgnoreRow(rs[1..], row, next, native);
    }
  }

  /** What the assignments to column j, made one by one, leave in it. */
  function LastValue(e: Entry, pk: string, row: Row, native: Native): Option<Value>
    requires pk in row
  {
    var rs, i := Live(e.records), LastFor(Live(e.records), row[pk]);
    if i < |rs| then Some(RecordValue(rs[i], row, native)) else Held(row, e.column)
  }

  lemma PlainTail(es: seq<Entry>, pk: string)
    requires es != [] && Plain(es, pk)
    ensures Plain(es[1..], pk) && forall k :: 0 <= k < |es[1..]| ==> es[1..][k] == es[k + 1]
  {
    hide FixedDefault, Fixed;
  }

  lemma ValueIgnoresColumn(e: Entry, pk: string, row: Row, next: Row, native: Native)
    requires pk in row && pk in next && next[pk] == row[pk] && Held(next, e.column) == Held(row, e.column)
    requires forall j :: 0 <= j < |Live(e.records)| ==> Fixed(Live(e.records)[j])
    ensures LastValue(e, pk, next, native) == LastValue(e, pk, row, native)
  {
    hide RecordValue;
    RecordsIgnoreRow(Live(e.records), row, next, native);
  }

  lemma {:induction false} OneByOneHolds(es: seq<Entry>, pk: string, row: Row, native: Native, c: string)
    requires pk in row && Plain(es, pk)
    ensures (forall i :: 0 <= i < |es| ==> es[i].column != c) ==> Held(OneByOne(es, pk, row, native), c) == Held(row, c)
    ensures forall j :: 0 <= j < |es| && es[j].column == c ==> Held(OneByOne(es, pk, row, native), c) == LastValue(es[j], pk, row, native)
  {
    hide RecordValue, FixedDefault, Fixed, Live;
    if es != [] {
      var next := AssignAll(Live(es[0].records), es[0].column, pk, row, native);
      AssignAllIsLast(Live(es[0].records), es[0].column, pk, row, native);
      PlainTail(es, pk);
      OneByOneHolds(es[1..], pk, next, native, c);
      forall j | 1 <= j < |es| && es[j].column == c ensures LastValue(es[j], pk, next, native) == LastValue(es[j], pk, row, native) {
        assert es[1..][j - 1] == es[j] && es[0].column != c;
        ValueIgnoresColumn(es[j], pk, row, next, native);
      }
    }
  }

  /** What the statement leaves in column j of a row that it covers. */
  function FirstValue(e: Entry, pk: string, row: Row, native: Native): Value
    requires pk in row
  {
    var rs, i := Live(e.records), FirstFor(Live(e.records), row[pk]);
    if i < |rs| then RecordValue(rs[i], row, native) else DefaultValue(e.def, row, native)
  }

  lemma {:induction false} UpdatedHolds(es: seq<Entry>, pk: string, row: Row, native: Native, c: string)
    requires pk in row && forall i :: 0 <= i < |es| ==> es[i].column != c
    ensures Held(Updated(es, pk, row, native), c) == Held(row, c)
  {
    hide RecordValue, DefaultValue, Live;
    if es != [] {
      var next := row[es[0].column := FirstValue(es[0], pk, row, native)];
      assert forall i :: 0 <= i < |es[1..]| ==> es[1..][i] == es[i + 1];
      UpdatedHolds(es[1..], pk, next, native, c);
    }
  }

  /** The first and the last record for the row's key agree; and a column without one holds its default already. */
  predicate Agrees(e: Entry, pk: string, row: Row, native: Native)
    requires pk in row
  {
    var rs := Live(e.records);
    var i, j := FirstFor(rs, row[pk]), LastFor(rs, row[pk]);
    if i < |rs| then RecordValue(rs[i], row, native) == RecordValue(rs[j], row, native)
    else Held(row, e.column) == Some(DefaultValue(e.def, row, native))
  }

  lemma AgreesExactly(e: Entry, pk: string, row: Row, native: Native)
    requires pk in row
    ensures Agrees(e, pk, row, native) <==> LastValue(e, pk, row, native) == Some(FirstValue(e, pk, row, native))
  {
  }

  /** The statement does to a row what its assignments do one by one: when nothing lists it, or every column agrees. */
  ghost predicate Harmless(es: seq<Entry>, pk: string, row: Row, native: Native)
    requires pk in row
  {
    row[pk] !in AllKeys(es) || forall j :: 0 <= j < |es| ==> Agrees(es[j], pk, row, native)
  }

  lemma UnlistedStays(es: seq<Entry>, pk: string, row: Row, native: Native)
    requires pk in row && Plain(es, pk) && row[pk] !in AllKeys(es)
    ensures OneByOne(es, pk, row, native) == row
  {
    hide FixedDefault, Fixed, Live;
    AllKeysFound(es, row[pk]);
    forall c ensures Held(OneByOne(es, pk, row, native), c) == Held(row, c) {
      OneByOneHolds(es, pk, row, native, c);
    }
    SameRow(OneByOne(es, pk, row, native), row);
  }

  lemma CoveredExactly(es: seq<Entry>, pk: string, row: Row, native: Native)
    requires pk in row && Plain(es, pk)
    ensures Updated(es, pk, row, native) == OneByOne(es, pk, row, native) <==> forall j :: 0 <= j < |es| ==> Agrees(es[j], pk, row, native)
  {
    hide Agrees, LastValue, FirstValue, Live, FixedDefault, Fixed, DefaultValue, RecordValue;
    var u, o := Updated(es, pk, row, native), OneByOne(es, pk, row, native);
    SameRow(u, o);
    forall j | 0 <= j < |es|
      ensures Agrees(es[j], pk, row, native) <==> Held(u, es[j].column) == Held(o, es[j].column)
    {
      ColumnHolds(es, pk, row, native, j);
      OneByOneHolds(es, pk, row, native, es[j].column);
      AgreesExactly(es[j], pk, row, native);
    }
    forall c | forall j :: 0 <= j < |es| ==> es[j].column != c ensures Held(u, c) == Held(o, c) {
      UpdatedHolds(es, pk, row, native, c);
      OneByOneHolds(es, pk, row, native, c);
    }
  }

  lemma ColumnHolds(es: seq<Entry>, pk: string, row: Row, native: Native, j: nat)
    requires pk in row && Plain(es, pk) && j < |es|
    ensures Held(Updated(es, pk, row, native), es[j].column) == Some(FirstValue(es[j], pk, row, native))
  {
    hide RecordValue, DefaultValue, FixedDefault;
    ColumnAfter(es, pk, row, native, j);
  }

  /**
   For different columns other than the key, with values and defaults that do not depend on the row, the
   statement does to a row what its assignments do one by one, if and only if no column lists the row's key,
   or each column that lists it has the same value in its first and last record for it, and each column that
   does not list it holds its default already.
   */
  lemma SameAsOneByOneExactly(es: seq<Entry>, pk: string, row: Row, native: Native)
    requires pk in row && Plain(es, pk)
    ensures RowAfter(es, pk, row, native) == OneByOne(es, pk, row, native) <==> Harmless(es, pk, row, native)
  {
    hide Plain, Agrees, Updated;
    if row[pk] in AllKeys(es) {
      CoveredExactly(es, pk, row, native);
    } else {
      UnlistedStays(es, pk, row, native);
    }
  }

  function AllOneByOne(es: seq<Entry>, pk: string, rows: seq<Row>, native: Native): (r: seq<Row>)
    requires forall i :: 0 <= i < |rows| ==> pk in rows[i]
    ensures |r| == |rows|
  {
    seq(|rows|, i requires 0 <= i < |rows| => OneByOne(es, pk, rows[i], native))
  }

  /** Executing the statement on a table is making its assignments one by one exactly when that is so for every row. */
  lemma ExecutedOneByOneExactly(table: string, primaryKey: string, allowed: seq<string>, es: seq<Entry>, rows: seq<Row>, native: Native)
    requires Compile(table, primaryKey, allowed, es).Ok?
    requires Name(table) && Name(Trim(primaryKey, "`")) && GoodEntries(es) && AllLive(es) && Plain(es, Trim(primaryKey, "`"))
    requires forall i :: 0 <= i < |rows| ==> Trim(primaryKey, "`") in rows[i]
    ensures
      var c, pk := Compile(table, primaryKey, allowed, es).value, Trim(primaryKey, "`");
      var s := ReadText(c.text, c.args);
      && s.Some?
      && (Execute(s.value, rows, native) == AllOneByOne(es, pk, rows, native)
          <==> forall i :: 0 <= i < |rows| ==> Harmless(es, pk, rows[i], native))
  {
    var c, pk := Compile(table, primaryKey, allowed, es).value, Trim(primaryKey, "`");
    CompiledIsRead(table, primaryKey, allowed, es);
    hide ReadText, Compile, GoodEntries, AllLive, Plain, Harmless, OneByOne, RowAfter;
    var s := ReadText(c.text, c.args);
    var after := Execute(s.value, rows, native);
    forall i | 0 <= i < |rows|
      ensures Harmless(es, pk, rows[i], native) <==> after[i] == AllOneByOne(es, pk, rows, native)[i]
    {
      ExecutedAsMeant(table, primaryKey, allowed, es, rows, native, i);
      SameAsOneByOneExactly(es, pk, rows[i], native);
    }
  }

  // ---------------------------------------------------------------- where the two differ

  /** When the lists differ, a row that only one column lists loses what it had in the other. */
  lemma DifferentListsOverwrite(a: string, b: string, pk: string, native: Native, k: int, l: int, x: Value, y: Value, kept: Value)
    requires a != b && a != pk && b != pk && k != l && k != 0 && l != 0 && kept != Conditions.Str("")
    ensures
      var es := [Entry(a, None, [Record(PlainInt(k), Simple(x), 0)]), Entry(b, None, [Record(PlainInt(l), Simple(y), 0)])];
      var row := map[pk := Conditions.Int(k), b := kept];
      && Held(OneByOne(es, pk, row, native), b) == Some(kept)
      && Held(RowAfter(es, pk, row, native), b) == Some(Conditions.Str(""))
  {
    var r, q := Record(PlainInt(k), Simple(x), 0), Record(PlainInt(l), Simple(y), 0);
    var es := [Entry(a, None, [r]), Entry(b, None, [q])];
    var row: Row := map[pk := Conditions.Int(k), b := kept];
    hide Tokenize, Closed, HasHole, DefaultValue;
    LiveOne(r);
    LiveOne(q);
    DefaultIsLiteral(None, row, native);
    assert Plain(es, pk);
    AllKeysFound(es, row[pk]);
    assert es[0].records == [r] && es[1].records == [q];
    OneByOneHolds(es, pk, row, native, b);
    ColumnHolds(es, pk, row, native, 1);
    assert es[1].column == b && LastFor([q], row[pk]) == 1;
  }

  /** When a column lists a key twice, the statement writes the first value; one by one, the second stays. */
  lemma RepeatedKeyTakesFirst(a: string, pk: string, native: Native, k: int, x: Value, y: Value, row: Row)
    requires a != pk && k != 0 && x != y && pk in row && row[pk] == Conditions.Int(k)
    ensures
      var es := [Entry(a, None, [Record(PlainInt(k), Simple(x), 0), Record(PlainInt(k), Simple(y), 0)])];
      && Held(RowAfter(es, pk, row, native), a) == Some(x)
      && Held(OneByOne(es, pk, row, native), a) == Some(y)
  {
    var r, q := Record(PlainInt(k), Simple(x), 0), Record(PlainInt(k), Simple(y), 0);
    var es := [Entry(a, None, [r, q])];
    hide Tokenize, Closed, HasHole, DefaultValue;
    LiveOne(q);
    assert [r, q][1..] == [q] && Live([r, q]) == [r, q];
    assert Plain(es, pk);
    AllKeysFound(es, row[pk]);
    assert es[0].records == [r, q] && FirstFor([r, q], row[pk]) == 0 && LastFor([r, q], row[pk]) == 1;
    OneByOneHolds(es, pk, row, native, a);
    ColumnHolds(es, pk, row, native, 0);
  }

  lemma LiveOne(r: Record)
    requires !Skipped(r)
    ensures Live([r]) == [r]
    ensures forall v :: FirstFor([r], v) == if KeyValue(r.pk) == v then 0 else 1
  {
    assert [r][1..] == [];
  }
}
