/** The compiler as the program runs it: two nested loops that grow texts and arguments side by side. */
module BulkCompiler {
  import opened Text
  import opened SqlText
  import Conditions
  import opened BulkUpdate

  /** One record that is not skipped: its WHEN text and its arguments, or an error. */
  method TakeRecord(item: Record, column: string) returns (r: Result<seq<Value>>, when: string)
    ensures r == ArmArguments(item, column) && when == WhenText(item)
  {
    if item.kind == ORIGIN && item.val.Simple? && item.val.v.Str? {
      return Ok([KeyValue(item.pk)]), "WHEN ? then " + item.val.v.s;
    }
    when := "WHEN ? then ?";
    assert when == WhenText(item);
    match item.val
    case Simple(v) => r := Ok([KeyValue(item.pk), v]);
    case Pointer(v) => r := Ok([KeyValue(item.pk), v]);
    case Nullable(v) => r := Ok([KeyValue(item.pk), v]);
    case Encoded(json) => r := Ok([KeyValue(item.pk), Conditions.Str(json)]);
    case Unencodable => r := Err(EncodingFailed);
    case OtherKind => r := Err(UnknownType(column));
    case Absent => r := Err(NilValue);
  }

  /** The records of one column: their WHEN texts, their keys and their arguments, or the first error. */
  method TakeRecords(column: string, records: seq<Record>) returns (r: Result<seq<Value>>, when: seq<string>, keys: seq<Value>)
    ensures r == Arguments(Live(records), column)
    ensures r.Ok? ==> when == WhenTexts(Live(records)) && keys == Keys(Live(records))
  {
    hide ArmArguments, WhenText, Skipped, Arguments, WhenTexts, Keys, Live;
    when, keys := [], [];
    var pretreatments: seq<Value> := [];
    assert records[0..] == records;
    OntoNothing(Arguments(Live(records), column));
    for i := 0 to |records|
      invariant Onto(pretreatments, Arguments(Live(records[i..]), column)) == Arguments(Live(records), column)
      invariant when + WhenTexts(Live(records[i..])) == WhenTexts(Live(records))
      invariant keys + Keys(Live(records[i..])) == Keys(Live(records))
    {
      var item := records[i];
      ghost var rest := Live(records[i + 1..]);
      assert records[i..][0] == item && records[i..][1..] == records[i + 1..];
      LiveUnfold(records[i..]);
      if Skipped(item) {
        continue;
      }
      UnfoldOnto(pretreatments, item, rest, column);
      UnfoldTexts(item, rest);
      Shift(when, WhenText(item), WhenTexts(rest));
      Shift(keys, KeyValue(item.pk), Keys(rest));
      var args, text := TakeRecord(item, column);
      if args.Err? {
        return args, when, keys;
      }
      when := when + [text];
      keys := keys + [KeyValue(item.pk)];
      pretreatments := pretreatments + args.value;
    }
    assert records[|records|..] == [];
    NothingLeft(column);
    assert pretreatments + [] == pretreatments && when + [] == when && keys + [] == keys;
    return Ok(pretreatments), when, keys;
  }

  /** One column: its CASE text, its keys and its arguments, or the first error. */
  method TakeColumn(val: Entry, pk: string, allowed: seq<string>) returns (r: Result<seq<Value>>, text: string, keys: seq<Value>)
    ensures r == EntryArguments(val, allowed)
    ensures r.Ok? ==> text == CaseText(val, pk) && keys == Keys(Live(val.records))
  {
    hide Arguments, WhenTexts, Keys, Live;
    var args, when, whereKeys := TakeRecords(val.column, val.records);
    text, keys := "", whereKeys;
    if args.Err? {
      return args, text, keys;
    }
    if val.column !in allowed {
      return Err(ColumnNotAllowed(val.column)), text, keys;
    }
    var head := "`" + val.column + "` = CASE `" + pk + "` " + Join(when, " ");
    if val.def.Some? {
      if val.def.value.kind == 0 {
        text := head + " ELSE " + Conditions.Format(val.def.value.value) + " END";
      } else {
        text := head + " ELSE '" + Conditions.Format(val.def.value.value) + "' END";
        CloseQuoted(head, Conditions.Format(val.def.value.value));
      }
    } else {
      text := head + " ELSE '' END";
      CloseEmpty(head);
    }
    r := args;
  }

  method TakeUpdateBulk(table: string, primaryKey: string, allowed: seq<string>, records: seq<Entry>) returns (r: Result<Compiled>)
    ensures r == Compile(table, primaryKey, allowed, records)
  {
    hide StatementText, EntryArguments, AllArguments, CaseText, CaseTexts, Keys, AllKeys, Live;
    var pk := Trim(primaryKey, "`");
    if pk == "" {
      return Err(EmptyPrimaryKey);
    }
    if |allowed| <= 0 {
      return Err(NoAllowedColumns);
    }
    if |records| <= 0 {
      return Err(NoRecords);
    }
    var arr: seq<string>, whereValues: seq<Value>, pretreatments: seq<Value> := [], [], [];
    assert records[0..] == records;
    OntoNothing(AllArguments(records, allowed));
    for i := 0 to |records|
      invariant Onto(pretreatments, AllArguments(records[i..], allowed)) == AllArguments(records, allowed)
      invariant arr + CaseTexts(records[i..], pk) == CaseTexts(records, pk)
      invariant whereValues + AllKeys(records[i..]) == AllKeys(records)
    {
      ghost var rest := records[i + 1..];
      assert records[i..][0] == records[i] && records[i..][1..] == rest;
      UnfoldEntries(pretreatments, records[i..], allowed);
      UnfoldCases(records[i..], pk);
      Shift(arr, CaseText(records[i], pk), CaseTexts(rest, pk));
      var args, text, keys := TakeColumn(records[i], pk, allowed);
      if args.Err? {
        return Err(args.error);
      }
      Reassociate(whereValues, keys, AllKeys(rest));
      pretreatments := pretreatments + args.value;
      whereValues := whereValues + keys;
      arr := arr + [text];
    }
    assert records[|records|..] == [];
    NothingMore(pk, allowed);
    assert pretreatments + [] == pretreatments && arr + [] == arr && whereValues + [] == whereValues;
    var sql := "UPDATE `" + table + "` SET " + Join(arr, ", ")
               + " where `" + pk + "` in(" + Trim(Repeat("?, ", |whereValues|), ", ") + ")";
    StatementIs(table, pk, records);
    return Ok(Compiled(sql, pretreatments + whereValues));
  }

  function Onto(done: seq<Value>, rest: Result<seq<Value>>): Result<seq<Value>>
  {
    if rest.Err? then rest else Ok(done + rest.value)
  }

  lemma OntoNothing(r: Result<seq<Value>>)
    ensures Onto([], r) == r
  {
    if r.Ok? {
      assert [] + r.value == r.value;
    }
  }

  lemma LiveUnfold(rs: seq<Record>)
    requires rs != []
    ensures Live(rs) == if Skipped(rs[0]) then Live(rs[1..]) else [rs[0]] + Live(rs[1..])
  {
    assert [] + Live(rs[1..]) == Live(rs[1..]);
  }

  lemma UnfoldTexts(r: Record, rest: seq<Record>)
    ensures WhenTexts([r] + rest) == [WhenText(r)] + WhenTexts(rest)
    ensures Keys([r] + rest) == [KeyValue(r.pk)] + Keys(rest)
  {
    assert ([r] + rest)[1..] == rest;
  }

  lemma NothingLeft(column: string)
    ensures Live([]) == [] && Arguments([], column) == Ok([]) && WhenTexts([]) == [] && Keys([]) == []
  {
  }

  lemma NothingMore(pk: string, allowed: seq<string>)
    ensures AllArguments([], allowed) == Ok([]) && CaseTexts([], pk) == [] && AllKeys([]) == []
  {
  }

  lemma UnfoldCases(es: seq<Entry>, pk: string)
    requires es != []
    ensures CaseTexts(es, pk) == [CaseText(es[0], pk)] + CaseTexts(es[1..], pk)
    ensures AllKeys(es) == Keys(Live(es[0].records)) + AllKeys(es[1..])
  {
  }

  lemma Reassociate(a: seq<Value>, b: seq<Value>, c: seq<Value>)
    ensures a + (b + c) == a + b + c
  {
  }

  lemma UnfoldOnto(done: seq<Value>, r: Record, rest: seq<Record>, column: string)
    ensures
      var a := ArmArguments(r, column);
      Onto(done, Arguments([r] + rest, column)) == if a.Err? then Err(a.error) else Onto(done + a.value, Arguments(rest, column))
  {
    assert ([r] + rest)[1..] == rest;
    var a, b := ArmArguments(r, column), Arguments(rest, column);
    if a.Ok? && b.Ok? {
      assert done + (a.value + b.value) == done + a.value + b.value;
    }
  }

  lemma UnfoldEntries(done: seq<Value>, es: seq<Entry>, allowed: seq<string>)
    requires es != []
    ensures
      var a := EntryArguments(es[0], allowed);
      Onto(done, AllArguments(es, allowed)) == if a.Err? then Err(a.error) else Onto(done + a.value, AllArguments(es[1..], allowed))
  {
    var a, b := EntryArguments(es[0], allowed), AllArguments(es[1..], allowed);
    if a.Ok? && b.Ok? {
      assert done + (a.value + b.value) == done + a.value + b.value;
    }
  }

  lemma Shift<T>(done: seq<T>, x: T, rest: seq<T>)
    ensures done + ([x] + rest) == done + [x] + rest
  {
  }

  lemma CloseQuoted(head: string, text: string)
    ensures head + " ELSE '" + text + "' END" == head + " ELSE " + ("'" + text + "'") + " END"
  {
  }

  lemma CloseEmpty(head: string)
    ensures head + " ELSE '' END" == head + " ELSE " + "''" + " END"
  {
  }

  lemma StatementIs(table: string, pk: string, es: seq<Entry>)
    ensures StatementText(table, pk, es) ==
            "UPDATE `" + table + "` SET " + Join(CaseTexts(es, pk), ", ")
            + " where `" + pk + "` in(" + Trim(Repeat("?, ", |AllKeys(es)|), ", ") + ")"
  {
  }
}
