/**
 The condition compiler as the program runs it: items are objects, validators write their defaults
 into them, JSON membership is rewritten in place and retried, and text and arguments are appended in
 loops. Every method is tied to the value-level compiler of module Conditions.
 */
module ConditionBuild {
  import opened Text
  import opened Conditions

  /**
   A condition item. The compiler never assigns `column`, `value`, `values` or `inner`, so they are
   constants here; `repr` and `height` say that the inner items form a finite tree without sharing.
   */
  class ConditionItem {
    const column: string
    const value: Value
    const values: seq<Value>
    const inner: seq<ConditionItem>
    var operator: string
    var logicalOperator: string
    var original: Option<Original>
    var columns: seq<string>
    ghost const repr: set<ConditionItem>
    ghost const height: nat

    constructor (column: string, value: Value, values: seq<Value>, operator: string, logicalOperator: string,
                 original: Option<Original>, inner: seq<ConditionItem>)
      requires ValidItems(inner) && forall o :: o in Footprint(inner) ==> allocated(o)
      ensures Valid() && repr == {this} + Footprint(inner)
      ensures Tree() == Condition(column, value, values, operator, logicalOperator, original, Trees(inner))
    {
      this.column, this.value, this.values, this.inner := column, value, values, inner;
      this.operator, this.logicalOperator, this.original, this.columns := operator, logicalOperator, original, [];
      this.repr := {this} + Footprint(inner);
      this.height := 1 + MaxHeight(inner);
      new;
      HeightAt(inner);
    }

    ghost predicate Valid()
      decreases height
    {
      && this in repr
      && (forall i :: 0 <= i < |inner| ==> inner[i].height < height && this !in inner[i].repr && inner[i].repr <= repr)
      && Separate(inner)
      && (forall i :: 0 <= i < |inner| ==> inner[i].Valid())
    }

    /** The item and everything below it, as a value. */
    ghost function Tree(): Condition
      requires Valid()
      reads repr
      decreases height
    {
      Condition(column, value, values, operator, logicalOperator, original,
                seq(|inner|, i requires 0 <= i < |inner| && Valid() reads repr => inner[i].Tree()))
    }

    method ColumnValidate() returns (e: Option<Error>)
      requires Valid()
      ensures e == ColumnError(Tree(), columns)
    {
      var columnSign := column != "";
      if !columnSign && |inner| <= 0 {
        return Some(EmptyItem);
      }
      if columnSign {
        if value.Nil? && |values| <= 0 {
          return Some(MissingValue(column));
        }
        if column !in columns {
          return Some(UnknownColumn(column));
        }
      }
      return None;
    }

    method OperatorValidate() returns (ok: bool)
      modifies `operator
      ensures operator == (if old(operator) == "" then "=" else old(operator))
      ensures ok == IsOperator(operator)
    {
      if operator == "" {
        operator := "=";
        return true;
      }
      return IsOperator(operator);
    }

    method LogicalOperatorValidate() returns (ok: bool)
      modifies `logicalOperator
      ensures logicalOperator == (if old(logicalOperator) == "" then "AND" else old(logicalOperator))
      ensures ok == IsLogicalOperator(logicalOperator)
    {
      if logicalOperator == "" {
        logicalOperator := "AND";
        return true;
      }
      ok := false;
      for k := 0 to 6
        invariant ok <==> exists j :: 0 <= j < k && LogicalOperator(j) == logicalOperator
      {
        if logicalOperator == LogicalOperator(k) {
          ok := true;
        }
      }
      assert ok ==> IsLogicalOperator(logicalOperator);
      assert IsLogicalOperator(logicalOperator) ==> ok by {
        assert LogicalOperator(0) == "&&" && LogicalOperator(1) == "||" && LogicalOperator(2) == "and";
        assert LogicalOperator(3) == "or" && LogicalOperator(4) == "AND" && LogicalOperator(5) == "OR";
      }
    }
  }

  // ---------------------------------------------------------------- lists of items

  ghost function Footprint(items: seq<ConditionItem>): set<ConditionItem>
  {
    set i, o | 0 <= i < |items| && o in items[i].repr :: o
  }

  ghost function MaxHeight(items: seq<ConditionItem>): nat
  {
    if items == [] then 0
    else if items[0].height > MaxHeight(items[1..]) then items[0].height
    else MaxHeight(items[1..])
  }

  /** No two siblings share an object. */
  ghost predicate Separate(items: seq<ConditionItem>)
  {
    forall i, j :: 0 <= i < j < |items| ==> items[i].repr !! items[j].repr
  }

  ghost predicate ValidItems(items: seq<ConditionItem>)
  {
    Separate(items) && forall i :: 0 <= i < |items| ==> items[i].Valid()
  }

  ghost function Trees(items: seq<ConditionItem>): (r: seq<Condition>)
    requires ValidItems(items)
    reads Footprint(items)
    ensures |r| == |items|
  {
    seq(|items|, i requires 0 <= i < |items| && ValidItems(items) reads Footprint(items) => items[i].Tree())
  }

  lemma {:induction false} HeightAt(items: seq<ConditionItem>)
    ensures forall i :: 0 <= i < |items| ==> items[i].height <= MaxHeight(items)
  {
    if items != [] {
      HeightAt(items[1..]);
      assert forall i :: 0 < i < |items| ==> items[i] == items[1..][i - 1];
    }
  }

  lemma {:induction false} MaxHeightBelow(items: seq<ConditionItem>, bound: nat)
    requires items != [] && forall i :: 0 <= i < |items| ==> items[i].height < bound
    ensures MaxHeight(items) < bound
  {
    if |items| > 1 {
      MaxHeightBelow(items[1..], bound);
    }
  }

  // ---------------------------------------------------------------- compiling

  /** What appending one compiled item must have produced. */
  ghost predicate Appended(result: Result<Piece>, error: Option<Error>, where: string, args: seq<Value>)
  {
    match result
    case Err(e) => error == Some(e)
    case Ok(p) => error.None? && where == PieceText(p) && args == p.args
  }

  method TrimConnectives(text: string) returns (r: string)
    ensures r == StripConnectives(text)
  {
    r := text;
    for k := 0 to 6
      invariant StripFrom(r, k) == StripConnectives(text)
    {
      r := Trim(r, " " + LogicalOperator(k) + " ");
    }
  }

  method JoinWheres(wheres: seq<string>, ghost ps: seq<Piece>) returns (r: string)
    requires |wheres| == |ps| && forall k :: 0 <= k < |ps| ==> wheres[k] == PieceText(ps[k])
    ensures r == TextOf(ps)
  {
    r := "";
    for k := 0 to |wheres|
      invariant r + TextOf(ps[k..]) == TextOf(ps)
    {
      r := r + wheres[k];
      assert ps[k..][1..] == ps[k + 1..];
    }
    assert ps[|ps|..] == [];
  }

  /** The leaf of one item: hand-written SQL, a value list or a single value, retried once for JSON membership. */
  method DoLeaf(item: ConditionItem, env: Env) returns (error: Option<Error>, where: string, args: seq<Value>)
    requires item.Valid() && item.inner == []
    requires IsOperator(item.operator) && IsLogicalOperator(item.logicalOperator)
    modifies item`original, item`logicalOperator
    ensures item.Tree() == CompileLeaf(old(item.Tree()), env).item
    ensures Appended(CompileLeaf(old(item.Tree()), env).result, error, where, args)
  {
    error, where, args := None, "", [];
    ghost var before := item.Tree();
    ghost var step := CompileLeaf(before, env);
    ghost var retries := 0;
    while true
      invariant IsLogicalOperator(item.logicalOperator) && retries <= 1
      invariant CompileLeaf(item.Tree(), env) == step
      invariant retries == 1 ==> item.original.Some? && item.original.value.query != ""
      decreases 1 - retries
    {
      var ok := item.LogicalOperatorValidate();
      if item.original.Some? && item.original.value.query != "" {
        where := " " + item.logicalOperator + " " + ("(" + item.original.value.query + ")");
        args := item.original.value.values;
        return;
      }
      if |item.values| > 0 {
        if ToLower(item.operator) == "jin" {
          if env.databaseType == "" {
            error := Some(DialectNotSet);
            return;
          }
          item.original := Some(JsonContains(item.column, item.values, env.databaseType));
          retries := retries + 1;
          continue;
        }
        var operator := "in";
        if ToLower(item.operator) == "notin" {
          operator := "not in";
        }
        where := " " + item.logicalOperator + " " + (QuoteColumn(item.column, env.databaseType) + " " + operator
                 + " (" + Trim(Repeat("?,", |item.values|), ",") + ")");
        args := item.values;
        return;
      }
      where := " " + item.logicalOperator + " " + (QuoteColumn(item.column, env.databaseType) + " " + item.operator + " ?");
      args := [BoundValue(item.operator, item.value)];
      return;
    }
  }

  /** A group: the inner list compiled, trimmed behind its connective and put in parentheses. */
  method DoGroup(item: ConditionItem, env: Env, emptyCondition: bool)
    returns (error: Option<Error>, where: string, args: seq<Value>)
    requires item.Valid() && item.inner != []
    modifies item.repr
    ensures item.operator == old(item.operator) && item.logicalOperator == old(item.logicalOperator)
    ensures item.original == old(item.original)
    ensures var sub := CompileList(old(Trees(item.inner)), env);
            && Trees(item.inner) == sub.items
            && Appended(GroupResult(item.logicalOperator, sub.result), error, where, args)
    decreases item.height, 0
  {
    error, where, args := None, "", [];
    MaxHeightBelow(item.inner, item.height);
    var r := Do(item.inner, env, emptyCondition);
    match r
    case Err(e) =>
      error := Some(e);
    case Ok(sub) =>
      var text := TrimConnectives(" " + item.logicalOperator + " " + sub.where);
      where := " " + item.logicalOperator + " " + ("(" + text + ")");
      args := sub.args;
  }

  function GroupResult(connective: string, result: Result<seq<Piece>>): Result<Piece>
  {
    match result
    case Err(error) => Err(error)
    case Ok(ps) =>
      var text := StripConnectives(TextOf(ps));
      Ok(Piece(connective, "(" + StripConnectives(" " + connective + " " + text) + ")", ArgsOf(ps)))
  }

  /** One turn of the loop over siblings. */
  method DoItem(item: ConditionItem, env: Env, emptyCondition: bool)
    returns (error: Option<Error>, where: string, args: seq<Value>)
    requires item.Valid()
    modifies item.repr
    ensures item.Tree() == CompileItem(old(item.Tree()), env).item
    ensures Appended(CompileItem(old(item.Tree()), env).result, error, where, args)
    decreases item.height, 1
  {
    error, where, args := None, "", [];
    ghost var c := item.Tree();
    RefusedItems(c, env);
    hide CompileItem, IsOperator, IsLogicalOperator, CompileLeaf, CompileList, Appended, StripConnectives, TextOf, ArgsOf, ColumnError, ValidColumn;
    item.columns := env.columns;
    assert item.Tree() == c;
    if item.original.None? {
      error := item.ColumnValidate();
      if error.Some? {
        Refused(CompileItem(c, env).result, error, where, args);
        return;
      }
    }
    var operatorOk := item.OperatorValidate();
    if !operatorOk {
      error := Some(BadOperator);
      Refused(CompileItem(c, env).result, error, where, args);
      return;
    }
    var connectiveOk := item.LogicalOperatorValidate();
    if !connectiveOk {
      error := Some(BadLogicalOperator);
      Refused(CompileItem(c, env).result, error, where, args);
      return;
    }
    assert item.Tree() == Defaulted(c);
    AcceptedItem(c, env);
    if |item.inner| > 0 {
      InnerTrees(item);
      error, where, args := DoGroup(item, env, emptyCondition);
      InnerTrees(item);
    } else {
      error, where, args := DoLeaf(item, env);
    }
  }

  lemma Refused(result: Result<Piece>, error: Option<Error>, where: string, args: seq<Value>)
    requires result.Err? && error == Some(result.error)
    ensures Appended(result, error, where, args)
  {
  }

  function Defaulted(c: Condition): Condition
  {
    c.(operator := OperatorOrDefault(c), logicalOperator := ConnectiveOrDefault(c))
  }

  /** What the validators refuse, and how they leave the item. */
  lemma RefusedItems(c: Condition, env: Env)
    ensures IsOperator("=") && IsLogicalOperator("AND")
    ensures c.original.None? && ColumnError(c, env.columns).Some? ==> CompileItem(c, env) == Step(c, Err(ColumnError(c, env.columns).value))
    ensures !(c.original.None? && ColumnError(c, env.columns).Some?) && !ValidOperator(c) ==> CompileItem(c, env) == Step(c, Err(BadOperator))
    ensures (!(c.original.None? && ColumnError(c, env.columns).Some?) && ValidOperator(c) && !ValidConnective(c)) ==>
              CompileItem(c, env) == Step(c.(operator := OperatorOrDefault(c)), Err(BadLogicalOperator))
  {
    hide CompileLeaf, CompileList;
  }

  /** What is compiled once the validators have passed. */
  lemma AcceptedItem(c: Condition, env: Env)
    requires !(c.original.None? && ColumnError(c, env.columns).Some?) && ValidOperator(c) && ValidConnective(c)
    ensures c.inner == [] ==> CompileItem(c, env) == CompileLeaf(Defaulted(c), env)
    ensures c.inner != [] ==>
              CompileItem(c, env) == Step(Defaulted(c).(inner := CompileList(c.inner, env).items),
                                          GroupResult(ConnectiveOrDefault(c), CompileList(c.inner, env).result))
  {
    hide CompileLeaf, CompileList;
  }

  lemma InnerTrees(item: ConditionItem)
    requires item.Valid()
    ensures ValidItems(item.inner) && item.Tree().inner == Trees(item.inner)
  {
  }

  /** The same turn, seen from the list: one tree changes, the others do not. */
  method DoTurn(items: seq<ConditionItem>, k: nat, env: Env, emptyCondition: bool)
    returns (error: Option<Error>, where: string, args: seq<Value>)
    requires ValidItems(items) && k < |items|
    modifies Footprint(items)
    ensures var step := CompileItem(old(Trees(items))[k], env);
            && Trees(items) == old(Trees(items))[k := step.item]
            && Appended(step.result, error, where, args)
    decreases items[k].height, 2
  {
    hide CompileItem, Appended;
    ghost var before := Trees(items);
    error, where, args := DoItem(items[k], env, emptyCondition);
    forall j | 0 <= j < |items| && j != k
      ensures items[j].Tree() == before[j]
    {
      assert items[j].repr !! items[k].repr;
    }
    OneChanged(items, k, before);
  }

  /** Compiles a list of siblings. */
  method Do(items: seq<ConditionItem>, env: Env, emptyCondition: bool) returns (r: Result<Compiled>)
    requires ValidItems(items)
    modifies Footprint(items)
    ensures Trees(items) == CompileList(old(Trees(items)), env).items
    ensures r == Compile(old(Trees(items)), env, emptyCondition)
    decreases MaxHeight(items), 3
  {
    if |items| <= 0 {
      return if emptyCondition then Ok(Compiled("", [])) else Err(NoConditions);
    }
    hide CompileItem, CompileList, Progress, StripConnectives, TextOf, ArgsOf;
    var wheres: seq<string>, placeholders: seq<Value> := [], [];
    ghost var before := Trees(items);
    ghost var ps: seq<Piece> := [];
    HeightAt(items);
    Starts(before, env);
    for k := 0 to |items|
      invariant Progress(before, env, Trees(items), ps, k)
      invariant |wheres| == k && |ps| == k && forall j :: 0 <= j < k ==> wheres[j] == PieceText(ps[j])
      invariant placeholders == ArgsOf(ps)
    {
      ghost var mid := Trees(items);
      Untouched(before, env, mid, ps, k);
      var error, where, args := DoTurn(items, k, env, emptyCondition);
      if error.Some? {
        StopsAt(before, env, mid, ps, k);
        return Err(error.value);
      }
      wheres := wheres + [where];
      placeholders := placeholders + args;
      Advances(before, env, mid, ps, k);
      ps := ps + [CompileItem(before[k], env).result.value];
    }
    Finishes(before, env, Trees(items), ps);
    var where := JoinWheres(wheres, ps);
    where := TrimConnectives(where);
    return Ok(Compiled(where, placeholders));
  }

  /** When the tree of one sibling changes, the list of trees changes at that place only. */
  lemma OneChanged(items: seq<ConditionItem>, k: nat, before: seq<Condition>)
    requires ValidItems(items) && |before| == |items| && k < |items|
    requires forall j :: 0 <= j < |items| && j != k ==> items[j].Tree() == before[j]
    ensures Trees(items) == before[k := items[k].Tree()]
  {
  }

  // ---------------------------------------------------------------- the loop over siblings, on values

  /** After k turns: the first k items are compiled and rewritten, the others are as they were. */
  ghost predicate Progress(before: seq<Condition>, env: Env, now: seq<Condition>, ps: seq<Piece>, k: nat)
  {
    && |now| == |before| && |ps| == k <= |before|
    && (forall j :: 0 <= j < k ==> CompileItem(before[j], env) == Step(now[j], Ok(ps[j])))
    && (forall j :: k <= j < |before| ==> now[j] == before[j])
  }

  lemma Starts(before: seq<Condition>, env: Env)
    ensures ArgsOf([]) == [] && Progress(before, env, before, [], 0)
  {
  }

  lemma Untouched(before: seq<Condition>, env: Env, now: seq<Condition>, ps: seq<Piece>, k: nat)
    requires Progress(before, env, now, ps, k) && k < |before|
    ensures |now| == |before| && |ps| == k && now[k] == before[k]
  {
  }

  /** A turn that succeeds is one step of progress, in the items, the pieces and the arguments. */
  lemma Advances(before: seq<Condition>, env: Env, now: seq<Condition>, ps: seq<Piece>, k: nat)
    requires Progress(before, env, now, ps, k) && k < |before| && CompileItem(before[k], env).result.Ok?
    ensures |now| == |before|
    ensures var step := CompileItem(before[k], env);
            && Progress(before, env, now[k := step.item], ps + [step.result.value], k + 1)
            && ArgsOf(ps + [step.result.value]) == ArgsOf(ps) + step.result.value.args
  {
    hide CompileItem;
    ArgsAppend(ps, CompileItem(before[k], env).result.value);
  }

  lemma {:induction false} ArgsAppend(ps: seq<Piece>, p: Piece)
    ensures ArgsOf(ps + [p]) == ArgsOf(ps) + p.args
  {
    if ps == [] {
      assert ArgsOf([p]) == p.args + ArgsOf([]);
      assert [] + [p] == [p];
    } else {
      ArgsAppend(ps[1..], p);
      assert (ps + [p])[1..] == ps[1..] + [p];
    }
  }

  function Resume(now: seq<Condition>, ps: seq<Piece>, tail: Steps): Steps
  {
    Steps(now + tail.items, if tail.result.Err? then tail.result else Ok(ps + tail.result.value))
  }

  /** Compiling a list whose first k items succeed is compiling the rest and putting the results in front. */
  lemma {:induction false} CompileFrom(before: seq<Condition>, env: Env, now: seq<Condition>, ps: seq<Piece>, k: nat)
    requires Progress(before, env, now, ps, k)
    ensures CompileList(before, env) == Resume(now[..k], ps, CompileList(before[k..], env))
    decreases k
  {
    hide CompileItem;
    if k == 0 {
      assert before[0..] == before && now[..0] == [] && ps == [];
      Nothing(CompileList(before, env));
    } else {
      var i := k - 1;
      assert Progress(before, env, now[i := before[i]], ps[..i], i);
      CompileFrom(before, env, now[i := before[i]], ps[..i], i);
      assert now[i := before[i]][..i] == now[..i];
      assert before[i..][0] == before[i] && before[i..][1..] == before[k..];
      hide CompileList;
      OneMore(now[..i], ps[..i], now[i], ps[i], CompileList(before[k..], env));
      assert now[..i] + [now[i]] == now[..k] && ps[..i] + [ps[i]] == ps;
    }
  }

  lemma Nothing(tail: Steps)
    ensures Resume([], [], tail) == tail
  {
    assert tail.result.Ok? ==> [] + tail.result.value == tail.result.value;
  }

  lemma OneMore(now: seq<Condition>, ps: seq<Piece>, c: Condition, p: Piece, tail: Steps)
    ensures Resume(now, ps, Resume([c], [p], tail)) == Resume(now + [c], ps + [p], tail)
  {
    assert now + ([c] + tail.items) == now + [c] + tail.items;
    assert tail.result.Ok? ==> ps + ([p] + tail.result.value) == ps + [p] + tail.result.value;
  }

  lemma StopsAt(before: seq<Condition>, env: Env, now: seq<Condition>, ps: seq<Piece>, k: nat)
    requires Progress(before, env, now, ps, k) && k < |before|
    requires CompileItem(before[k], env).result.Err?
    ensures |now| == |before|
    ensures var step := CompileItem(before[k], env);
            CompileList(before, env) == Steps(now[k := step.item], Err(step.result.error))
  {
    hide CompileItem;
    CompileFrom(before, env, now, ps, k);
    var step := CompileItem(before[k], env);
    assert before[k..][1..] == before[k + 1..];
    assert now[..k] + ([step.item] + before[k + 1..]) == now[k := step.item];
  }

  lemma Finishes(before: seq<Condition>, env: Env, now: seq<Condition>, ps: seq<Piece>)
    requires Progress(before, env, now, ps, |before|)
    ensures CompileList(before, env) == Steps(now, Ok(ps))
  {
    CompileFrom(before, env, now, ps, |before|);
    assert now[..|before|] == now && ps + [] == ps && now + [] == now;
  }
}
