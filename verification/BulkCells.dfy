/**
 What executing a compiled bulk update leaves in the cells of a table, in terms of what the caller passed: the
 kinds of keys, values and defaults, one by one.
 */
module BulkCells {
  import opened Text
  import opened SqlText
  import Conditions
  import ConditionLeaves
  import opened BulkUpdate
  import opened BulkStatement
  import opened BulkReading
  import opened BulkParsing
  import opened BulkTheorems

  /** A record for the rows that hold this key; a plain zero is for none. */
  predicate IsFor(r: Record, key: Value)
  {
    match r.pk
    case PlainInt(n) => n != 0 && key == Conditions.Int(n)
    case OtherKey(v) => key == v
  }

  /** The first of the records for that key. */
  predicate First(rs: seq<Record>, key: Value, f: int)
  {
    0 <= f < |rs| && IsFor(rs[f], key) && forall j :: 0 <= j < f ==> !IsFor(rs[j], key)
  }

  /** What a cell holds once the caller's value is in it: simple values, pointers and nullables themselves, the rest as JSON. */
  predicate Holds(cell: Cell, v: Value)
  {
    match cell
    case Simple(x) => v == x
    case Pointer(x) => v == x
    case Nullable(x) => v == x
    case Encoded(json) => v == Conditions.Str(json)
    case _ => false
  }

  /** Raw SQL: a text of the kind that stands for itself. */
  predicate Raw(r: Record) { r.kind == 1 && r.val.Simple? && r.val.v.Str? }

  /** What a default writes: nothing given is the empty text, a plain number is itself, anything else is quoted text. */
  predicate Defaults(def: Option<Default>, v: Value)
  {
    match def
    case None => v == Conditions.Str("")
    case Some(d) => if d.kind == 0 then v == d.value else v.Str? && ConditionLeaves.Rendered(d.value, v.s)
  }

  /** A default that is such a literal. */
  ghost predicate Literal(def: Option<Default>)
  {
    match def
    case None => true
    case Some(d) =>
      if d.kind == 0 then d.value.Int? && IsInt64(d.value.n)
      else forall text :: ConditionLeaves.Rendered(d.value, text) ==> StandsForItself(text)
  }

  /** The first live record for a key, by the head of the list. */
  lemma FirstStep(rs: seq<Record>, key: Value)
    requires rs != []
    ensures Live(rs) == (if Skipped(rs[0]) then [] else [rs[0]]) + Live(rs[1..])
    ensures IsFor(rs[0], key) <==> !Skipped(rs[0]) && KeyValue(rs[0].pk) == key
    ensures IsFor(rs[0], key) ==> Live(rs)[0] == rs[0] && FirstFor(Live(rs), key) == 0
    ensures !IsFor(rs[0], key) ==> FirstFor(Live(rs), key) == FirstFor(Live(rs[1..]), key) + |Live(rs)| - |Live(rs[1..])|
  {
    if Skipped(rs[0]) {
      assert Live(rs) == Live(rs[1..]);
    } else {
      assert Live(rs)[1..] == Live(rs[1..]);
    }
  }

  lemma {:induction false} FirstIsFirst(rs: seq<Record>, key: Value, f: int)
    requires First(rs, key, f)
    ensures var i := FirstFor(Live(rs), key); i < |Live(rs)| && Live(rs)[i] == rs[f]
    decreases |rs|
  {
    hide Live, FirstFor, IsFor;
    FirstStep(rs, key);
    if f > 0 {
      FirstOfRest(rs, key, f);
      hide First;
      FirstIsFirst(rs[1..], key, f - 1);
      assert rs[1..][f - 1] == rs[f];
    }
  }

  lemma FirstOfRest(rs: seq<Record>, key: Value, f: int)
    requires First(rs, key, f) && f > 0
    ensures First(rs[1..], key, f - 1) && !IsFor(rs[0], key)
  {
    hide IsFor;
    forall j | 0 <= j < f - 1 ensures !IsFor(rs[1..][j], key) {
      assert rs[1..][j] == rs[j + 1];
    }
  }

  lemma {:induction false} NoneIsFirst(rs: seq<Record>, key: Value)
    requires forall j :: 0 <= j < |rs| ==> !IsFor(rs[j], key)
    ensures FirstFor(Live(rs), key) == |Live(rs)|
  {
    if rs != [] {
      FirstStep(rs, key);
      hide Live, FirstFor, IsFor;
      assert !IsFor(rs[0], key) && forall j :: 0 <= j < |rs[1..]| ==> rs[1..][j] == rs[j + 1] && !IsFor(rs[j + 1], key);
      NoneIsFirst(rs[1..], key);
    }
  }

  predicate Listed(rs: seq<Record>, key: Value) { exists f :: 0 <= f < |rs| && IsFor(rs[f], key) }

  lemma ListedStep(rs: seq<Record>, key: Value)
    requires rs != []
    ensures Listed(rs, key) <==> IsFor(rs[0], key) || Listed(rs[1..], key)
  {
    hide IsFor;
    if f :| 0 <= f < |rs| && IsFor(rs[f], key) {
      assert f > 0 ==> rs[1..][f - 1] == rs[f];
    }
    if f :| 0 <= f < |rs[1..]| && IsFor(rs[1..][f], key) {
      assert rs[f + 1] == rs[1..][f];
    }
  }

  lemma KeysStep(rs: seq<Record>, key: Value)
    requires rs != []
    ensures key in Keys(Live(rs)) <==> IsFor(rs[0], key) || key in Keys(Live(rs[1..]))
  {
    if Skipped(rs[0]) {
      assert Live(rs) == Live(rs[1..]);
    } else {
      assert Live(rs)[0] == rs[0] && Live(rs)[1..] == Live(rs[1..]);
    }
  }

  lemma {:induction false} KeysListed(rs: seq<Record>, key: Value)
    ensures key in Keys(Live(rs)) <==> Listed(rs, key)
  {
    if rs != [] {
      KeysListed(rs[1..], key);
      KeysStep(rs, key);
      ListedStep(rs, key);
    }
  }

  /** A column has a record for the row with this key. */
  predicate Lists(e: Entry, key: Value) { Listed(e.records, key) }

  /** Some column has a record for the row with this key. */
  predicate Covers(es: seq<Entry>, key: Value)
  {
    exists k :: 0 <= k < |es| && Lists(es[k], key)
  }

  lemma {:induction false} CoveredIsListed(es: seq<Entry>, key: Value)
    ensures key in AllKeys(es) <==> Covers(es, key)
  {
    if es != [] {
      hide Live, Keys, Listed;
      CoveredIsListed(es[1..], key);
      KeysListed(es[0].records, key);
      assert Covers(es, key) <==> Lists(es[0], key) || Covers(es[1..], key) by {
        assert forall k :: 0 <= k < |es[1..]| ==> es[1..][k] == es[k + 1];
        if k :| 0 <= k < |es| && Lists(es[k], key) {
          assert k > 0 ==> es[1..][k - 1] == es[k];
        }
      }
    }
  }

  /** The table after the compiled statement has been read and executed. */
  function TableAfter(table: string, primaryKey: string, allowed: seq<string>, es: seq<Entry>, rows: seq<Row>, native: Native): seq<Row>
    requires Compile(table, primaryKey, allowed, es).Ok?
  {
    var c := Compile(table, primaryKey, allowed, es).value;
    match ReadText(c.text, c.args)
    case None => rows
    case Some(s) => Execute(s, rows, native)
  }

  /** What column j of a covered row holds when the columns before it have made the row x. */
  ghost predicate CellAfter(e: Entry, key: Value, x: Row, native: Native, v: Value)
  {
    && (forall f :: First(e.records, key, f) ==>
                      if Raw(e.records[f]) then v == EvalTokens(TokensOf(e.records[f].val.v.s), x, native) else Holds(e.records[f].val, v))
    && ((forall f :: 0 <= f < |e.records| ==> !IsFor(e.records[f], key)) && Literal(e.def) ==> Defaults(e.def, v))
  }

  lemma CellIs(e: Entry, column: string, key: Value, x: Row, native: Native)
    requires Arguments(Live(e.records), column).Ok?
    ensures
      var rs, i := Live(e.records), FirstFor(Live(e.records), key);
      CellAfter(e, key, x, native, if i < |rs| then RecordValue(rs[i], x, native) else DefaultValue(e.def, x, native))
  {
    hide Live, EvalTokens, DefaultValue, Tokenize, FirstFor;
    var rs, i := Live(e.records), FirstFor(Live(e.records), key);
    var v := if i < |rs| then RecordValue(rs[i], x, native) else DefaultValue(e.def, x, native);
    forall f | First(e.records, key, f)
      ensures if Raw(e.records[f]) then v == EvalTokens(TokensOf(e.records[f].val.v.s), x, native) else Holds(e.records[f].val, v)
    {
      FirstIsFirst(e.records, key, f);
      ArgumentAt(rs, column, i);
    }
    if (forall f :: 0 <= f < |e.records| ==> !IsFor(e.records[f], key)) && Literal(e.def) {
      NoneIsFirst(e.records, key);
      LiteralIs(e.def, x, native);
    }
  }

  lemma {:induction false} ArgumentAt(rs: seq<Record>, column: string, i: nat)
    requires i < |rs| && Arguments(rs, column).Ok?
    ensures IsRaw(rs[i]) || Argument(rs[i], column).Ok?
  {
    if i > 0 {
      ArgumentAt(rs[1..], column, i - 1);
    }
  }

  lemma LiteralIs(def: Option<Default>, x: Row, native: Native)
    requires Literal(def)
    ensures Defaults(def, DefaultValue(def, x, native))
  {
    hide DefaultValue, StandsForItself, EvalTokens;
    if def.Some? && def.value.kind != 0 {
      assert ConditionLeaves.Rendered(def.value.value, Conditions.Format(def.value.value));
    }
    DefaultIsLiteral(def, x, native);
  }

  lemma {:induction false} UpdatedCell(es: seq<Entry>, allowed: seq<string>, pk: string, row: Row, native: Native, j: nat)
    requires pk in row && SeparateColumns(es, pk) && j < |es| && AllArguments(es, allowed).Ok?
    ensures
      var r, x := Updated(es, pk, row, native), Updated(es[..j], pk, row, native);
      es[j].column in r && CellAfter(es[j], row[pk], x, native, r[es[j].column])
  {
    hide RecordValue, DefaultValue, CellAfter, Arguments;
    var rs, i := Live(es[0].records), FirstFor(Live(es[0].records), row[pk]);
    var v := if i < |rs| then RecordValue(rs[i], row, native) else DefaultValue(es[0].def, row, native);
    var next := row[es[0].column := v];
    assert SeparateColumns(es[1..], pk) by {
      assert forall k :: 0 <= k < |es[1..]| ==> es[1..][k] == es[k + 1];
    }
    if j == 0 {
      CellIs(es[0], es[0].column, row[pk], row, native);
      assert forall k :: 0 <= k < |es[1..]| ==> es[1..][k].column == es[k + 1].column != es[0].column;
      OtherColumnsStay(es[1..], pk, next, native, es[0].column);
    } else {
      UpdatedCell(es[1..], allowed, pk, next, native, j - 1);
      assert es[0].column != pk && es[..j][0] == es[0] && es[..j][1..] == es[1..][..j - 1];
    }
  }

  /**
   Executing the compiled text. A row for whose key no column has a record stays as it is. In any other row a
   column gets the value of its first record for that key, or what raw SQL evaluates to on the row as the columns
   before it left it; without such a record it gets its default. Columns that are not updated keep their values.
   */
  lemma ExecutedCells(table: string, primaryKey: string, allowed: seq<string>, es: seq<Entry>, rows: seq<Row>, native: Native, i: nat)
    requires Compile(table, primaryKey, allowed, es).Ok?
    requires Name(table) && Name(Trim(primaryKey, "`")) && GoodEntries(es) && AllLive(es)
    requires SeparateColumns(es, Trim(primaryKey, "`"))
    requires i < |rows| && Trim(primaryKey, "`") in rows[i]
    ensures
      var r, pk := TableAfter(table, primaryKey, allowed, es, rows, native), Trim(primaryKey, "`");
      && |r| == |rows|
      && (!Covers(es, rows[i][pk]) ==> r[i] == rows[i])
      && (Covers(es, rows[i][pk]) ==>
            forall j :: 0 <= j < |es| ==>
                          es[j].column in r[i] && CellAfter(es[j], rows[i][pk], Updated(es[..j], pk, rows[i], native), native, r[i][es[j].column]))
      && (forall c :: c in rows[i] && (forall j :: 0 <= j < |es| ==> es[j].column != c) ==> c in r[i] && r[i][c] == rows[i][c])
  {
    hide Compile, ReadText, Execute, GoodEntries, Updated, AllLive, Covers, CellAfter, SeparateColumns, AllArguments;
    var pk, row := Trim(primaryKey, "`"), rows[i];
    ExecutedAsMeant(table, primaryKey, allowed, es, rows, native, i);
    CoveredIsListed(es, row[pk]);
    CompiledArguments(table, primaryKey, allowed, es);
    forall j | 0 <= j < |es|
      ensures var r := Updated(es, pk, row, native);
              es[j].column in r && CellAfter(es[j], row[pk], Updated(es[..j], pk, row, native), native, r[es[j].column])
    {
      UpdatedCell(es, allowed, pk, row, native, j);
    }
    forall c | c in row && (forall j :: 0 <= j < |es| ==> es[j].column != c)
      ensures c in Updated(es, pk, row, native) && Updated(es, pk, row, native)[c] == row[c]
    {
      OtherColumnsStay(es, pk, row, native, c);
    }
  }

  lemma CompiledArguments(table: string, primaryKey: string, allowed: seq<string>, es: seq<Entry>)
    requires Compile(table, primaryKey, allowed, es).Ok?
    ensures AllArguments(es, allowed).Ok?
  {
  }
}
