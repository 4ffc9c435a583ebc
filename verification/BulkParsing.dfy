/** Reading the tokens of a bulk update: arguments meet their placeholders, and a column without records spoils it all. */
module BulkParsing {
  import opened Text
  import opened SqlText
  import Conditions
  import opened BulkUpdate
  import opened BulkStatement
  import opened BulkReading

  // ---------------------------------------------------------------- what is read

  function OperandOf(r: Record): Operand
  {
    if IsRaw(r) then Sql(TokensOf(RawText(r))) else Bound(if Argument(r, "").Ok? then Argument(r, "").value else Conditions.Nil)
  }

  function ArmsOf(rs: seq<Record>): seq<Arm>
  {
    if rs == [] then [] else [Arm(KeyValue(rs[0].pk), OperandOf(rs[0]))] + ArmsOf(rs[1..])
  }

  function AssignmentOf(e: Entry, pk: string): Assignment
  {
    Assignment(e.column, pk, ArmsOf(Live(e.records)), Sql(TokensOf(DefaultText(e.def))))
  }

  function SetsOf(es: seq<Entry>, pk: string): seq<Assignment>
  {
    if es == [] then [] else [AssignmentOf(es[0], pk)] + SetsOf(es[1..], pk)
  }

  // ---------------------------------------------------------------- operands and arms

  predicate StopsAt(ts: seq<Token>) { ts != [] && Stops(ts[0]) }

  lemma {:induction false} ClosedLength(ts: seq<Token>, rest: seq<Token>, depth: nat)
    requires Closed(ts, depth) && StopsAt(rest)
    ensures OperandLength(ts + rest, depth) == |ts|
  {
    if ts == [] {
      assert ts + rest == rest;
    } else {
      var next := if Keyword(ts[0], "case") then depth + 1 else if depth > 0 && Keyword(ts[0], "end") then depth - 1 else depth;
      ClosedLength(ts[1..], rest, next);
      assert (ts + rest)[1..] == ts[1..] + rest;
    }
  }

  lemma SqlRead(ts: seq<Token>, rest: seq<Token>, args: seq<Value>)
    requires ts != [] && Closed(ts, 0) && !HasHole(ts) && StopsAt(rest)
    ensures ReadOperand(ts + rest, args) == Some(Read(Sql(ts), rest, args))
  {
    hide Closed, Stops;
    ClosedLength(ts, rest, 0);
    assert (ts + rest)[..|ts|] == ts && (ts + rest)[|ts|..] == rest;
    assert ts[0] != Hole;
  }

  lemma HoleRead(v: Value, rest: seq<Token>, args: seq<Value>)
    requires StopsAt(rest)
    ensures ReadOperand([Hole] + rest, [v] + args) == Some(Read(Bound(v), rest, args))
  {
    var ts := [Hole] + rest;
    assert ts[1..] == rest && OperandLength(rest, 0) == 0;
    assert OperandLength(ts, 0) == 1 && ts[..1] == [Hole];
    assert ([v] + args)[1..] == args;
  }

  lemma Keywords()
    ensures Keyword(Word("WHEN"), "when") && Keyword(Word("then"), "then") && Keyword(Word("ELSE"), "else") && Keyword(Word("END"), "end")
    ensures !Keyword(Word("ELSE"), "when")
  {
    LowerWords();
    assert ToLower("ELSE")[0] == 'e';
  }

  lemma LowerWords()
    ensures ToLower("WHEN") == "when" && ToLower("then") == "then" && ToLower("ELSE") == "else" && ToLower("END") == "end"
  {
    assert ToLower("WHEN") == ['w', 'h', 'e', 'n'] && ToLower("then") == ['t', 'h', 'e', 'n'];
    assert ToLower("ELSE") == ['e', 'l', 's', 'e'] && ToLower("END") == ['e', 'n', 'd'];
  }

  lemma OtherKeywords()
    ensures Keyword(Word("UPDATE"), "update") && Keyword(Word("SET"), "set") && Keyword(Word("where"), "where") && Keyword(Word("in"), "in")
    ensures Keyword(Word("="), "=") && Keyword(Word("CASE"), "case")
  {
    assert ToLower("UPDATE") == ['u', 'p', 'd', 'a', 't', 'e'] && ToLower("SET") == ['s', 'e', 't'];
    assert ToLower("where") == ['w', 'h', 'e', 'r', 'e'] && ToLower("in") == ['i', 'n'];
    assert ToLower("=") == ['='] && ToLower("CASE") == ['c', 'a', 's', 'e'];
  }

  lemma ArmRead(r: Record, column: string, rest: seq<Token>, more: seq<Value>)
    requires GoodRecord(r) && StopsAt(rest) && ArmArguments(r, column).Ok?
    ensures ReadArm(WhenTokens(r) + rest, ArmArguments(r, column).value + more) == Some(Read(Arm(KeyValue(r.pk), OperandOf(r)), rest, more))
  {
    hide ReadOperand, Closed, Stops, Keyword;
    Keywords();
    var ts, a := WhenTokens(r) + rest, ArmArguments(r, column).value + more;
    assert ts[0] == Word("WHEN") && ts[1] == Hole && ts[2] == Word("then") && ts[3..] == OperandTokens(r) + rest;
    assert a[0] == KeyValue(r.pk);
    if IsRaw(r) {
      assert a[1..] == more;
      SqlRead(TokensOf(RawText(r)), rest, more);
    } else {
      var v := Argument(r, "").value;
      assert a[1..] == [v] + more;
      HoleRead(v, rest, more);
    }
  }

  lemma {:induction false} ArmsRead(rs: seq<Record>, column: string, rest: seq<Token>, more: seq<Value>)
    requires forall i :: 0 <= i < |rs| ==> GoodRecord(rs[i])
    requires Arguments(rs, column).Ok? && rest != [] && rest[0] == Word("ELSE")
    ensures ReadArms(ArmsTokens(rs) + rest, Arguments(rs, column).value + more) == Some(Read(ArmsOf(rs), rest, more))
  {
    hide ReadArm, Keyword, ArmArguments, OperandOf, GoodRecord, WhenTokens;
    Keywords();
    if rs == [] {
      assert ArmsTokens(rs) + rest == rest && Arguments(rs, column).value + more == more;
    } else {
      var tail, a, b := ArmsTokens(rs[1..]) + rest, ArmArguments(rs[0], column).value, Arguments(rs[1..], column).value;
      ArmsRead(rs[1..], column, rest, more);
      NextStops(rs[1..], rest);
      ArmRead(rs[0], column, tail, b + more);
      WhenFirst(rs[0]);
      assert ArmsTokens(rs) + rest == WhenTokens(rs[0]) + tail;
      assert (a + b) + more == a + (b + more);
    }
  }

  lemma WhenFirst(r: Record)
    ensures |WhenTokens(r)| > 0 && WhenTokens(r)[0] == Word("WHEN")
  {
  }

  lemma NextStops(rs: seq<Record>, rest: seq<Token>)
    requires rest != [] && rest[0] == Word("ELSE")
    ensures StopsAt(ArmsTokens(rs) + rest)
  {
    Keywords();
    if rs == [] {
      assert ArmsTokens(rs) + rest == rest;
    } else {
      WhenFirst(rs[0]);
    }
  }

  // ---------------------------------------------------------------- assignments

  lemma CaseRead(e: Entry, pk: string, rest: seq<Token>, more: seq<Value>)
    requires GoodEntry(e) && Arguments(Live(e.records), e.column).Ok?
    ensures ReadAssignment(CaseTokens(e, pk) + rest, Arguments(Live(e.records), e.column).value + more) ==
            if Live(e.records) == [] then None else Some(Read(AssignmentOf(e, pk), rest, more))
  {
    hide ReadArms, ReadOperand, Keyword, ArmsTokens, Closed, OperandTokens;
    Keywords();
    OtherKeywords();
    var rs, other := Live(e.records), TokensOf(DefaultText(e.def));
    var last := [Word("END")] + rest;
    var after := [Word("ELSE")] + (other + last);
    var ts := CaseTokens(e, pk) + rest;
    assert ts[0] == Quoted('`', e.column) && ts[1] == Word("=") && ts[2] == Word("CASE") && ts[3] == Quoted('`', pk);
    assert ts[4..] == ArmsTokens(rs) + after;
    ArmsRead(rs, e.column, after, more);
    assert StopsAt(last);
    SqlRead(other, last, more);
    assert after[1..] == other + last && last[1..] == rest;
    assert rs == [] <==> ArmsOf(rs) == [];
  }

  lemma {:induction false} SetsRead(es: seq<Entry>, pk: string, allowed: seq<string>, rest: seq<Token>, more: seq<Value>)
    requires es != [] && GoodEntries(es) && AllArguments(es, allowed).Ok? && rest != [] && rest[0] != Comma
    ensures ReadSets(SetsTokens(es, pk) + rest, AllArguments(es, allowed).value + more) ==
            if AllLive(es) then Some(Read(SetsOf(es, pk), rest, more)) else None
  {
    hide ReadAssignment, CaseTokens, AssignmentOf, GoodEntry, Arguments;
    var e, a := es[0], Arguments(Live(es[0].records), es[0].column).value;
    assert GoodEntry(e);
    if |es| == 1 {
      assert es[1..] == [] && AllArguments(es[1..], allowed) == Ok([]) && a + [] == a;
      CaseRead(e, pk, rest, more);
      assert SetsOf(es[1..], pk) == [] && SetsOf(es, pk) == [AssignmentOf(e, pk)];
      assert AllLive(es) <==> Live(e.records) != [];
    } else {
      var b := AllArguments(es[1..], allowed).value;
      var tail := SetsTokens(es[1..], pk) + rest;
      CaseRead(e, pk, [Comma] + tail, b + more);
      assert SetsTokens(es, pk) + rest == CaseTokens(e, pk) + ([Comma] + tail);
      assert (a + b) + more == a + (b + more);
      assert ([Comma] + tail)[1..] == tail;
      SetsRead(es[1..], pk, allowed, rest, more);
      assert AllLive(es) <==> Live(e.records) != [] && AllLive(es[1..]);
    }
  }

  lemma {:induction false} KeysRead(keys: seq<Value>)
    ensures ReadKeys(KeysTokens(|keys|), keys) == if keys == [] then None else Some(keys)
  {
    if |keys| >= 2 {
      KeysRead(keys[1..]);
      var ts := KeysTokens(|keys|);
      assert ts[2..] == KeysTokens(|keys[1..]|);
      assert keys == [keys[0]] + keys[1..];
    }
  }

  lemma LiveHasKeys(es: seq<Entry>)
    requires es != [] && AllLive(es)
    ensures AllKeys(es) != []
  {
  }

  /**
   The compiled statement, read back with its arguments, is the one the entries describe. It can be read
   exactly when every column has a record that is not skipped.
   */
  lemma CompiledIsRead(table: string, primaryKey: string, allowed: seq<string>, es: seq<Entry>)
    requires Compile(table, primaryKey, allowed, es).Ok?
    requires Name(table) && Name(Trim(primaryKey, "`")) && GoodEntries(es)
    ensures
      var c, pk := Compile(table, primaryKey, allowed, es).value, Trim(primaryKey, "`");
      ReadText(c.text, c.args) == if AllLive(es) then Some(Statement(table, SetsOf(es, pk), pk, AllKeys(es))) else None
  {
    hide Tokenize, StatementText, SetsTokens, ReadSets, ReadKeys, KeysTokens, SetsOf, AllLive, AllArguments, GoodEntries, Keyword, Live;
    OtherKeywords();
    var pk := Trim(primaryKey, "`");
    StatementTokenized(table, pk, es);
    var args, keys := AllArguments(es, allowed).value, AllKeys(es);
    var t := [Word("where"), Quoted('`', pk), Word("in"), LParen] + KeysTokens(|keys|);
    var ts := StatementTokens(table, pk, es);
    assert ts[0] == Word("UPDATE") && ts[1] == Quoted('`', table) && ts[2] == Word("SET") && ts[3..] == SetsTokens(es, pk) + t;
    SetsRead(es, pk, allowed, t, keys);
    assert t[0] == Word("where") && t[1] == Quoted('`', pk) && t[2] == Word("in") && t[3] == LParen && t[4..] == KeysTokens(|keys|);
    KeysRead(keys);
    if AllLive(es) {
      LiveHasKeys(es);
    }
  }
}
