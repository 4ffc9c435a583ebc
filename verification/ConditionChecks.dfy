/**
 What the compiler takes, what it refuses and for which reason, and how it leaves the items.
 */
module ConditionChecks {
  import opened Text
  import opened Conditions

  // ---------------------------------------------------------------- what is accepted

  /** The operators and connectives that may be given; none at all stands for the default. */
  const OPERATORS: set<string> := {"", "<", "<=", ">", ">=", "!=", "=", "in", "IN", "notin", "NOTIN", "like", "LIKE", "llike", "LLIKE", "jin", "JIN"}

  const CONNECTIVES: set<string> := {"", "&&", "||", "and", "or", "AND", "OR"}

  predicate HasQuery(c: Condition) { c.original.Some? && c.original.value.query != "" }

  predicate Compares(c: Condition) { c.value != Nil || c.values != [] }

  /** Without hand-written SQL an item has inner items, or a known column with something to compare. */
  predicate Placed(c: Condition, columns: seq<string>)
  {
    c.original.Some? || if c.column == "" then c.inner != [] else c.column in columns && Compares(c)
  }

  /** JSON membership, which has to be put in the words of a database. */
  predicate AsksJson(c: Condition) { c.inner == [] && !HasQuery(c) && c.values != [] && c.operator in {"jin", "JIN"} }

  /** An item that the compiler takes, with everything below it. */
  predicate Acceptable(c: Condition, env: Env)
    decreases c
  {
    && Placed(c, env.columns) && c.operator in OPERATORS && c.logicalOperator in CONNECTIVES
    && (AsksJson(c) ==> env.databaseType != "")
    && forall i :: 0 <= i < |c.inner| ==> Acceptable(c.inner[i], env)
  }

  lemma OperatorsSpelled(s: string)
    ensures IsOperator(s) <==> s in OPERATORS && s != ""
    ensures IsLogicalOperator(s) <==> s in CONNECTIVES && s != ""
  {
  }

  lemma JsonSpelled(s: string)
    requires s in OPERATORS
    ensures ToLower(if s == "" then "=" else s) == "jin" <==> s in {"jin", "JIN"}
  {
  }

  lemma ChecksSpelled(c: Condition, columns: seq<string>)
    ensures ValidOperator(c) <==> c.operator in OPERATORS
    ensures ValidConnective(c) <==> c.logicalOperator in CONNECTIVES
    ensures c.original.None? && ColumnError(c, columns).Some? <==> !Placed(c, columns)
    ensures c.operator in OPERATORS ==> (ToLower(OperatorOrDefault(c)) == "jin" <==> c.operator in {"jin", "JIN"})
  {
    OperatorsSpelled(OperatorOrDefault(c));
    OperatorsSpelled(ConnectiveOrDefault(c));
    if c.operator in OPERATORS {
      JsonSpelled(c.operator);
    }
    hide IsOperator, IsLogicalOperator, ToLower;
  }

  lemma {:induction false} AcceptableItem(c: Condition, env: Env)
    ensures CompileItem(c, env).result.Ok? <==> Acceptable(c, env)
    decreases c, 0
  {
    ChecksSpelled(c, env.columns);
    hide ValidOperator, ValidConnective, StripConnectives, ColumnError, QuoteColumn, BoundValue, JsonContains, Placed, ToLower;
    if c.inner != [] {
      AcceptableList(c.inner, env);
    }
  }

  lemma {:induction false} AcceptableList(cs: seq<Condition>, env: Env)
    ensures CompileList(cs, env).result.Ok? <==> forall i :: 0 <= i < |cs| ==> Acceptable(cs[i], env)
    decreases cs, 0
  {
    hide CompileItem, Acceptable;
    if cs != [] {
      AcceptableItem(cs[0], env);
      AcceptableList(cs[1..], env);
      assert cs == [cs[0]] + cs[1..];
    }
  }

  /** A call succeeds if and only if every item at every level is acceptable, or there is none and that is allowed. */
  lemma AcceptedExactly(cs: seq<Condition>, env: Env, emptyCondition: bool)
    ensures Compile(cs, env, emptyCondition).Ok? <==>
              if cs == [] then emptyCondition else forall i :: 0 <= i < |cs| ==> Acceptable(cs[i], env)
    ensures cs == [] && emptyCondition ==> Compile(cs, env, emptyCondition).value == Compiled("", [])
  {
    AcceptableList(cs, env);
  }

  // ---------------------------------------------------------------- what is refused

  /** What is wrong with an item's column. */
  predicate ColumnFault(c: Condition, columns: seq<string>, x: Error)
  {
    c.original.None? &&
      if c.column == "" then c.inner == [] && x == EmptyItem
      else if Compares(c) then c.column !in columns && x == UnknownColumn(c.column)
      else x == MissingValue(c.column)
  }

  /** The first thing that is wrong with an item, or below it. */
  predicate Fault(c: Condition, env: Env, x: Error)
    decreases c
  {
    if !Placed(c, env.columns) then ColumnFault(c, env.columns, x)
    else if c.operator !in OPERATORS then x == BadOperator
    else if c.logicalOperator !in CONNECTIVES then x == BadLogicalOperator
    else if c.inner == [] then AsksJson(c) && env.databaseType == "" && x == DialectNotSet
    else exists i :: 0 <= i < |c.inner| && Fault(c.inner[i], env, x) && forall j :: 0 <= j < i ==> Acceptable(c.inner[j], env)
  }

  /** The first of the items that are not acceptable has that fault. */
  predicate FirstFault(cs: seq<Condition>, env: Env, x: Error)
  {
    exists i :: 0 <= i < |cs| && Fault(cs[i], env, x) && forall j :: 0 <= j < i ==> Acceptable(cs[j], env)
  }

  lemma ColumnFaultIs(c: Condition, columns: seq<string>, x: Error)
    ensures c.original.None? && ColumnError(c, columns) == Some(x) <==> ColumnFault(c, columns, x)
  {
  }

  lemma {:induction false} RefusedItem(c: Condition, env: Env, x: Error)
    ensures CompileItem(c, env).result == Err(x) <==> Fault(c, env, x)
    decreases c, 0
  {
    ChecksSpelled(c, env.columns);
    ColumnFaultIs(c, env.columns, x);
    hide ValidOperator, ValidConnective, StripConnectives, ColumnError, QuoteColumn, BoundValue, JsonContains, Placed, ToLower, ColumnFault;
    if c.inner != [] {
      RefusedList(c.inner, env, x);
    }
  }

  lemma FaultStep(cs: seq<Condition>, env: Env, x: Error)
    requires cs != []
    ensures FirstFault(cs, env, x) <==> Fault(cs[0], env, x) || (Acceptable(cs[0], env) && FirstFault(cs[1..], env, x))
  {
    hide Fault, Acceptable;
    if i :| 0 <= i < |cs| && Fault(cs[i], env, x) && forall j :: 0 <= j < i ==> Acceptable(cs[j], env) {
      if i > 0 {
        assert cs[1..][i - 1] == cs[i] && forall j :: 0 <= j < i - 1 ==> cs[1..][j] == cs[j + 1];
      }
    }
    if Acceptable(cs[0], env) && FirstFault(cs[1..], env, x) {
      var i :| 0 <= i < |cs[1..]| && Fault(cs[1..][i], env, x) && forall j :: 0 <= j < i ==> Acceptable(cs[1..][j], env);
      assert cs[i + 1] == cs[1..][i] && forall j :: 0 < j < i + 1 ==> cs[j] == cs[1..][j - 1];
    }
  }

  lemma {:induction false} RefusedList(cs: seq<Condition>, env: Env, x: Error)
    ensures CompileList(cs, env).result == Err(x) <==> FirstFault(cs, env, x)
    decreases cs, 0
  {
    if cs != [] {
      hide CompileItem, Acceptable, Fault, FirstFault;
      AcceptableItem(cs[0], env);
      RefusedItem(cs[0], env, x);
      RefusedList(cs[1..], env, x);
      FaultStep(cs, env, x);
    }
  }

  /** Which error a call answers: that of the first item, depth first, which is not acceptable. */
  lemma RefusedExactly(cs: seq<Condition>, env: Env, emptyCondition: bool, x: Error)
    ensures Compile(cs, env, emptyCondition) == Err(x) <==>
              if cs == [] then !emptyCondition && x == NoConditions else FirstFault(cs, env, x)
  {
    hide FirstFault, StripConnectives;
    RefusedList(cs, env, x);
  }

  // ---------------------------------------------------------------- how the items are left

  /** An item after it was compiled, or as far as it was: defaults written, JSON membership rewritten, nothing else changed. */
  predicate LeftAs(c: Condition, d: Condition, env: Env)
    decreases c
  {
    if !Placed(c, env.columns) || c.operator !in OPERATORS then d == c
    else
      && d.column == c.column && d.value == c.value && d.values == c.values
      && d.operator == (if c.operator == "" then "=" else c.operator)
      && if c.logicalOperator !in CONNECTIVES then d.logicalOperator == c.logicalOperator && d.inner == c.inner && d.original == c.original
         else
           && d.logicalOperator == (if c.logicalOperator == "" then "AND" else c.logicalOperator)
           && d.original == (if AsksJson(c) && env.databaseType != "" then Some(JsonContains(c.column, c.values, env.databaseType)) else c.original)
           && |d.inner| == |c.inner|
           && forall i :: 0 <= i < |c.inner| ==>
                if forall j :: 0 <= j < i ==> Acceptable(c.inner[j], env) then LeftAs(c.inner[i], d.inner[i], env) else d.inner[i] == c.inner[i]
  }

  /** The items up to the first that is refused, and the untouched ones after it. */
  predicate AllLeftAs(cs: seq<Condition>, ds: seq<Condition>, env: Env)
  {
    && |ds| == |cs|
    && forall i :: 0 <= i < |cs| ==>
         if forall j :: 0 <= j < i ==> Acceptable(cs[j], env) then LeftAs(cs[i], ds[i], env) else ds[i] == cs[i]
  }

  lemma {:induction false} ItemLeft(c: Condition, env: Env)
    ensures LeftAs(c, CompileItem(c, env).item, env)
    decreases c, 0
  {
    ChecksSpelled(c, env.columns);
    hide ValidOperator, ValidConnective, StripConnectives, ColumnError, QuoteColumn, BoundValue, JsonContains, Placed, ToLower, Acceptable;
    if c.inner != [] {
      ItemsLeft(c.inner, env);
    }
  }

  lemma LeftStep(cs: seq<Condition>, ds: seq<Condition>, env: Env)
    requires cs != [] && |ds| == |cs| && LeftAs(cs[0], ds[0], env)
    requires if Acceptable(cs[0], env) then AllLeftAs(cs[1..], ds[1..], env) else ds[1..] == cs[1..]
    ensures AllLeftAs(cs, ds, env)
  {
    hide LeftAs, Acceptable;
    forall i | 0 < i < |cs|
      ensures if forall j :: 0 <= j < i ==> Acceptable(cs[j], env) then LeftAs(cs[i], ds[i], env) else ds[i] == cs[i]
    {
      assert cs[1..][i - 1] == cs[i] && ds[1..][i - 1] == ds[i];
      if Acceptable(cs[0], env) {
        assert (forall j :: 0 <= j < i ==> Acceptable(cs[j], env)) <==> forall j :: 0 <= j < i - 1 ==> Acceptable(cs[1..][j], env) by {
          assert forall j :: 0 < j < i ==> cs[j] == cs[1..][j - 1];
          assert forall j :: 0 <= j < i - 1 ==> cs[1..][j] == cs[j + 1];
        }
      }
    }
  }

  /** What a call writes into the items, whether it succeeds or not. */
  lemma {:induction false} ItemsLeft(cs: seq<Condition>, env: Env)
    ensures AllLeftAs(cs, CompileList(cs, env).items, env)
    decreases cs, 0
  {
    if cs != [] {
      hide CompileItem, Acceptable, LeftAs, AllLeftAs;
      AcceptableItem(cs[0], env);
      ItemLeft(cs[0], env);
      ItemsLeft(cs[1..], env);
      LeftStep(cs, CompileList(cs, env).items, env);
    }
  }
}
