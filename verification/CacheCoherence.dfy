/**
 When cached answers are the database's, in runs in which the steps of queries and writes interleave, and
 exactly which keys a write drops.
 */
module CacheCoherence {
  import opened Text
  import opened QueryCache

  /** Names that the key format keeps apart. */
  predicate Named(models: string -> Advanced, table: string) { Plain(table) && Plain(models(table).prefix) }

  /** A table whose cached queries every kind of write drops. */
  predicate Guarded(models: string -> Advanced, table: string)
  {
    var a := models(table);
    Named(models, table) && (Caches(a) ==> Drops(a, Create) && Drops(a, Update) && Drops(a, Delete))
  }

  predicate NamedStep(models: string -> Advanced, step: Step) { step.Lookup? ==> Named(models, step.table) }

  /** All queries are of tables with such names. */
  predicate NamedSteps(models: string -> Advanced, steps: seq<Step>) { forall i :: 0 <= i < |steps| ==> NamedStep(models, steps[i]) }

  function KeyOf(w: World, models: string -> Advanced, table: string, sql: string): string
  {
    DataKey(models(table).prefix, UniqueId(w, table, sql))
  }

  function TextKeyOf(w: World, models: string -> Advanced, table: string, sql: string): string
  {
    SqlKey(models(table).prefix, UniqueId(w, table, sql))
  }

  /** The three keys that a store sets are different ones. */
  predicate KeysApart(w: World, models: string -> Advanced, table: string, sql: string)
  {
    var p, data, text := models(table).prefix, KeyOf(w, models, table, sql), TextKeyOf(w, models, table, sql);
    p != data && p != text && data != text
  }

  // ---------------------------------------------------------------- invariants

  /** A write of this version of the table that has still to delete the key. */
  predicate Awaits(x: Write, table: string, version: nat, key: string)
  {
    x.table == table && x.version == version && (x.Changed? || key in x.todo)
  }

  ghost predicate Awaited(s: State, table: string, version: nat, key: string)
  {
    exists x :: x in s.writes && Awaits(s.writes[x], table, version, key)
  }

  /** A live result was read from its table, and every change since it was stored has still to delete it. */
  ghost predicate Sound(w: World, models: string -> Advanced, s: State, table: string, sql: string)
  {
    var key, now := KeyOf(w, models, table, sql), VersionOf(s, table);
    Live(s.cache, s.now, key).Some? ==>
      && key in s.origins
      && var o := s.origins[key];
      && o.table == table && o.sql == sql && Caches(models(table))
      && Live(s.cache, s.now, key) == Some(Data(w.eval(sql, o.contents)))
      && o.read <= o.stored <= now
      && (o.read == now ==> o.contents == TableOf(s, table))
      && s.cache[key].expiresAt == Some(o.at + models(table).expire) && o.at <= s.now
      && (Guarded(models, table) ==> forall v: nat :: o.stored < v <= now ==> Awaited(s, table, v, key))
  }

  ghost predicate QuerySound(w: World, models: string -> Advanced, s: State, x: Query)
  {
    && Named(models, x.table)
    && (x.HasRead? ==>
          && x.rows == w.eval(x.sql, x.contents) && x.read <= VersionOf(s, x.table)
          && (x.read == VersionOf(s, x.table) ==> x.contents == TableOf(s, x.table)))
  }

  ghost predicate OpsSound(w: World, models: string -> Advanced, s: State)
  {
    && (forall q :: q in s.queries ==> q < s.started && QuerySound(w, models, s, s.queries[q]))
    && (forall x :: x in s.writes ==> x < s.started && s.writes[x].version <= VersionOf(s, s.writes[x].table))
  }

  ghost predicate AllSound(w: World, models: string -> Advanced, s: State)
  {
    forall table, sql :: Named(models, table) ==> Sound(w, models, s, table, sql)
  }

  // ---------------------------------------------------------------- steps keep them

  lemma ReadKeeps(w: World, models: string -> Advanced, s: State, step: Step, t: string, other: string)
    requires step.Tick? || step.Lookup? || step.Read? || step.GetKeys?
    requires Sound(w, models, s, t, other)
    ensures Sound(w, models, Do(w, models, s, step), t, other)
  {
    hide KeyOf, Guarded, AnswerTo;
    var r, key := Do(w, models, s, step), KeyOf(w, models, t, other);
    if Live(r.cache, r.now, key).Some? {
      forall v: nat | Awaited(s, t, v, key) ensures Awaited(r, t, v, key) {
      }
    }
  }

  /** A step that leaves the result, its origin, its table and all writes alone. */
  lemma StaysSound(w: World, models: string -> Advanced, s: State, r: State, t: string, other: string)
    requires Sound(w, models, s, t, other)
    requires var key := KeyOf(w, models, t, other);
             Live(r.cache, r.now, key) == Live(s.cache, s.now, key) && (key in s.origins ==> key in r.origins && r.origins[key] == s.origins[key])
    requires var key := KeyOf(w, models, t, other);
             key in r.cache && Live(r.cache, r.now, key).Some? ==> key in s.cache && r.cache[key] == s.cache[key]
    requires r.versions == s.versions && r.tables == s.tables && r.writes == s.writes && r.now == s.now
    ensures Sound(w, models, r, t, other)
  {
    assert Live(r.cache, r.now, KeyOf(w, models, t, other)).Some? ==> KeyOf(w, models, t, other) in r.cache;
    hide KeyOf, Guarded, Live;
    var key := KeyOf(w, models, t, other);
    if Live(r.cache, r.now, key).Some? {
      forall v: nat | Awaited(s, t, v, key) ensures Awaited(r, t, v, key) {
      }
    }
  }

  /** A result that has just been stored: no change has come since. */
  lemma NewIsSound(w: World, models: string -> Advanced, r: State, x: Query, t: string, other: string)
    requires x.HasRead? && QuerySound(w, models, r, x) && x.table == t && x.sql == other && Caches(models(t))
    requires var key := KeyOf(w, models, t, other);
             Live(r.cache, r.now, key) == Some(Data(x.rows)) && key in r.origins
             && key in r.cache && r.cache[key].expiresAt == Some(r.now + models(t).expire)
             && r.origins[key] == Origin(t, other, x.contents, x.read, VersionOf(r, t), r.now)
    ensures Sound(w, models, r, t, other)
  {
    hide KeyOf, Guarded, Live;
  }

  lemma SetDataKeeps(w: World, models: string -> Advanced, s: State, q: nat, t: string, other: string)
    requires Injective(w) && OpsSound(w, models, s) && Named(models, t) && Sound(w, models, s, t, other)
    ensures Sound(w, models, DoSetData(w, models, s, q), t, other)
  {
    if q in s.queries && s.queries[q].HasRead? {
      var x := s.queries[q];
      assert QuerySound(w, models, s, x);
      hide DataKey, UniqueId, Sound, OpsSound;
      KeysDiffer(w, models(t).prefix, t, other, models(x.table).prefix, x.table, x.sql);
      hide Plain, Injective;
      DataSetKeeps(w, models, s, q, x, t, other);
    }
  }

  lemma NewDataKeeps(w: World, models: string -> Advanced, s: State, q: nat, x: Query)
    requires q in s.queries && s.queries[q] == x && x.HasRead? && QuerySound(w, models, s, x) && Stores(models(x.table), x.rows)
    ensures Sound(w, models, DoSetData(w, models, s, q), x.table, x.sql)
  {
    hide DataKey, UniqueId, Sound;
    var r := DoSetData(w, models, s, q);
    assert QuerySound(w, models, r, x);
    hide QuerySound;
    NewIsSound(w, models, r, x, x.table, x.sql);
  }

  lemma DataSetKeeps(w: World, models: string -> Advanced, s: State, q: nat, x: Query, t: string, other: string)
    requires q in s.queries && s.queries[q] == x && x.HasRead? && QuerySound(w, models, s, x) && Sound(w, models, s, t, other)
    requires KeyOf(w, models, t, other) == KeyOf(w, models, x.table, x.sql) ==> x.table == t && x.sql == other
    ensures Sound(w, models, DoSetData(w, models, s, q), t, other)
  {
    hide DataKey, UniqueId, Sound, QuerySound;
    if Stores(models(x.table), x.rows) && x.table == t && x.sql == other {
      NewDataKeeps(w, models, s, q, x);
    } else {
      StaysSound(w, models, s, DoSetData(w, models, s, q), t, other);
    }
  }

  lemma SetTextKeeps(w: World, models: string -> Advanced, s: State, q: nat, t: string, other: string)
    requires Injective(w) && OpsSound(w, models, s) && Named(models, t) && Sound(w, models, s, t, other)
    ensures Sound(w, models, DoSetText(w, models, s, q), t, other)
    ensures Sound(w, models, DoSetKeys(w, models, s, q), t, other)
  {
    hide DataKey, SqlKey, UniqueId, Unique, Sound;
    if q in s.queries {
      var x := s.queries[q];
      assert QuerySound(w, models, s, x);
      KeysDiffer(w, models(t).prefix, t, other, models(x.table).prefix, x.table, x.sql);
    }
    StaysSound(w, models, s, DoSetText(w, models, s, q), t, other);
    StaysSound(w, models, s, DoSetKeys(w, models, s, q), t, other);
  }

  lemma ChangeAwaited(models: string -> Advanced, s: State, kind: Kind, table: string, contents: Contents, affected: int,
                      t: string, v: nat, key: string)
    requires s.started !in s.writes && (table == t ==> Drops(models(t), kind))
    requires v <= VersionOf(s, t) ==> Awaited(s, t, v, key)
    requires v <= VersionOf(DoChange(models, s, kind, table, contents, affected), t)
    ensures Awaited(DoChange(models, s, kind, table, contents, affected), t, v, key)
  {
    var r := DoChange(models, s, kind, table, contents, affected);
    if v <= VersionOf(s, t) {
      var x :| x in s.writes && Awaits(s.writes[x], t, v, key);
      assert Awaits(r.writes[x], t, v, key);
    } else {
      assert Awaits(r.writes[s.started], t, v, key);
    }
  }

  lemma ChangeKeeps(w: World, models: string -> Advanced, s: State, kind: Kind, table: string, contents: Contents, affected: int, t: string, other: string)
    requires OpsSound(w, models, s) && Sound(w, models, s, t, other)
    ensures Sound(w, models, DoChange(models, s, kind, table, contents, affected), t, other)
  {
    hide KeyOf, QuerySound, Live, Awaited, Drops;
    var r, key := DoChange(models, s, kind, table, contents, affected), KeyOf(w, models, t, other);
    if r != s && Live(r.cache, r.now, key).Some? && Guarded(models, t) {
      forall v: nat | s.origins[key].stored < v <= VersionOf(r, t) ensures Awaited(r, t, v, key) {
        ChangeAwaited(models, s, kind, table, contents, affected, t, v, key);
      }
    }
  }

  /** A live key of a table is among those that a scan for the table lists. */
  lemma ScanListsKey(w: World, models: string -> Advanced, s: State, table: string, sql: string)
    requires Named(models, table) && Live(s.cache, s.now, KeyOf(w, models, table, sql)).Some?
    ensures KeyOf(w, models, table, sql) in TableKeys(s.cache, s.now, models(table), table)
  {
    hide DataKey, UniqueId, HasPrefix, TablePrefix;
    KeyShape(w, models(table).prefix, table, sql);
    KeyOfTable(models(table).prefix, table, models(table).prefix, table, KeyTail(w, sql, "data"));
  }

  lemma ScanKeeps(w: World, models: string -> Advanced, s: State, y: nat, t: string, other: string)
    requires Named(models, t) && Sound(w, models, s, t, other)
    ensures Sound(w, models, DoScan(models, s, y), t, other)
  {
    hide KeyOf, Guarded, TableKeys;
    var r, key := DoScan(models, s, y), KeyOf(w, models, t, other);
    if Live(r.cache, r.now, key).Some? {
      ScanListsKey(w, models, s, t, other);
      forall v: nat | Awaited(s, t, v, key) ensures Awaited(r, t, v, key) {
        var x :| x in s.writes && Awaits(s.writes[x], t, v, key);
        assert Awaits(r.writes[x], t, v, key);
      }
    }
  }

  lemma DeleteKeeps(w: World, models: string -> Advanced, s: State, y: nat, gone: string, t: string, other: string)
    requires Sound(w, models, s, t, other)
    ensures Sound(w, models, DoDeleteKey(s, y, gone), t, other)
  {
    hide KeyOf, Guarded;
    var r, key := DoDeleteKey(s, y, gone), KeyOf(w, models, t, other);
    forall v: nat | Awaited(s, t, v, key) && key in r.cache ensures Awaited(r, t, v, key) {
      var x :| x in s.writes && Awaits(s.writes[x], t, v, key);
      assert Awaits(r.writes[x], t, v, key);
    }
  }

  lemma FinishKeeps(w: World, models: string -> Advanced, s: State, y: nat, t: string, other: string)
    requires Sound(w, models, s, t, other)
    ensures Sound(w, models, DoFinish(s, y), t, other)
  {
    hide KeyOf, Guarded, Live;
    var r, key := DoFinish(s, y), KeyOf(w, models, t, other);
    forall v: nat | Awaited(s, t, v, key) ensures Awaited(r, t, v, key) {
      var x :| x in s.writes && Awaits(s.writes[x], t, v, key);
      assert Awaits(r.writes[x], t, v, key);
    }
  }

  lemma StepSound(w: World, models: string -> Advanced, s: State, step: Step, t: string, other: string)
    requires Injective(w) && OpsSound(w, models, s) && Named(models, t) && Sound(w, models, s, t, other)
    ensures Sound(w, models, Do(w, models, s, step), t, other)
  {
    hide Sound, OpsSound, Named, DoLookup, DoRead, DoSetData, DoSetText, DoGetKeys, DoSetKeys, DoChange, DoScan, DoDeleteKey, DoFinish;
    match step
    case SetData(q) => SetDataKeeps(w, models, s, q, t, other);
    case SetText(q) => SetTextKeeps(w, models, s, q, t, other);
    case SetKeys(q) => SetTextKeeps(w, models, s, q, t, other);
    case Change(kind, table, contents, affected) => ChangeKeeps(w, models, s, kind, table, contents, affected, t, other);
    case Scan(x) => ScanKeeps(w, models, s, x, t, other);
    case DeleteKey(x, key) => DeleteKeeps(w, models, s, x, key, t, other);
    case Finish(x) => FinishKeeps(w, models, s, x, t, other);
    case _ => ReadKeeps(w, models, s, step, t, other);
  }

  ghost predicate SameDatabase(s: State, r: State) { r.tables == s.tables && r.versions == s.versions && s.started <= r.started }

  /** A query moves on, or ends, over a database that stays as it is. */
  lemma QueryMoves(w: World, models: string -> Advanced, s: State, r: State, q: nat, x: Query)
    requires OpsSound(w, models, s) && SameDatabase(s, r) && r.writes == s.writes
    requires QuerySound(w, models, s, x) && q < r.started && (r.queries == s.queries[q := x] || r.queries == s.queries - {q})
    ensures OpsSound(w, models, r)
  {
    hide Named;
    forall p | p in r.queries ensures p < r.started && QuerySound(w, models, r, r.queries[p]) {
      assert p in s.queries ==> QuerySound(w, models, s, s.queries[p]);
      assert QuerySound(w, models, r, r.queries[p]) == QuerySound(w, models, s, r.queries[p]);
    }
  }

  /** A write moves on, or ends. */
  lemma WriteMoves(w: World, models: string -> Advanced, s: State, r: State, x: nat, y: Write)
    requires OpsSound(w, models, s) && SameDatabase(s, r) && r.queries == s.queries && x in s.writes
    requires y.table == s.writes[x].table && y.version == s.writes[x].version && (r.writes == s.writes[x := y] || r.writes == s.writes - {x})
    ensures OpsSound(w, models, r)
  {
    hide Named;
    forall p | p in r.queries ensures p < r.started && QuerySound(w, models, r, r.queries[p]) {
      assert QuerySound(w, models, r, r.queries[p]) == QuerySound(w, models, s, r.queries[p]);
    }
  }

  lemma LookupOps(w: World, models: string -> Advanced, s: State, table: string, sql: string)
    requires OpsSound(w, models, s) && Named(models, table)
    ensures OpsSound(w, models, DoLookup(w, models(table), s, table, sql))
  {
    hide Named, AnswerTo;
    var r := DoLookup(w, models(table), s, table, sql);
    if r != s {
      assert QuerySound(w, models, s, Missed(table, sql));
      hide OpsSound;
      QueryMoves(w, models, s, r, s.started, Missed(table, sql));
    }
  }

  lemma ReadOps(w: World, models: string -> Advanced, s: State, q: nat)
    requires OpsSound(w, models, s)
    ensures OpsSound(w, models, DoRead(w, s, q))
  {
    hide Named;
    if q in s.queries && s.queries[q].Missed? {
      var r := DoRead(w, s, q);
      assert QuerySound(w, models, s, s.queries[q]);
      assert QuerySound(w, models, s, r.queries[q]);
      hide OpsSound, QuerySound;
      QueryMoves(w, models, s, r, q, r.queries[q]);
    }
  }

  /** What a step of the store does to its query. */
  lemma StoreMoves(w: World, models: string -> Advanced, s: State, step: Step)
    requires step.SetData? || step.SetText? || step.GetKeys? || step.SetKeys?
    ensures
      var r := Do(w, models, s, step);
      r != s ==>
        && SameDatabase(s, r) && r.writes == s.writes && r.started == s.started && step.q in s.queries
        && (r.queries == s.queries - {step.q}
            || (step.q in r.queries && r.queries == s.queries[step.q := r.queries[step.q]]
                && r.queries[step.q].table == s.queries[step.q].table && !r.queries[step.q].HasRead?))
  {
    hide DataKey, SqlKey, UniqueId, Unique, Recorded, OwnKeys, Stores;
  }

  lemma StoreOps(w: World, models: string -> Advanced, s: State, step: Step)
    requires OpsSound(w, models, s) && (step.SetData? || step.SetText? || step.GetKeys? || step.SetKeys?)
    ensures OpsSound(w, models, Do(w, models, s, step))
  {
    hide Named, Do;
    var r := Do(w, models, s, step);
    StoreMoves(w, models, s, step);
    if r != s {
      var x := s.queries[step.q];
      assert QuerySound(w, models, s, x);
      var y := if step.q in r.queries then r.queries[step.q] else x;
      assert QuerySound(w, models, s, y);
      hide OpsSound, QuerySound;
      QueryMoves(w, models, s, r, step.q, y);
    }
  }

  lemma DropOps(w: World, models: string -> Advanced, s: State, step: Step)
    requires OpsSound(w, models, s) && (step.Scan? || step.DeleteKey? || step.Finish?)
    ensures OpsSound(w, models, Do(w, models, s, step))
  {
    hide TableKeys, QuerySound, OpsSound;
    var r := Do(w, models, s, step);
    if r != s {
      WriteMoves(w, models, s, r, step.x, if step.x in r.writes then r.writes[step.x] else s.writes[step.x]);
    }
  }

  lemma ChangeOps(w: World, models: string -> Advanced, s: State, kind: Kind, table: string, contents: Contents, affected: int)
    requires OpsSound(w, models, s)
    ensures OpsSound(w, models, DoChange(models, s, kind, table, contents, affected))
  {
    hide Named, Drops;
    var r := DoChange(models, s, kind, table, contents, affected);
    forall q | q in r.queries ensures q < r.started && QuerySound(w, models, r, r.queries[q]) {
      assert QuerySound(w, models, s, s.queries[q]);
    }
  }

  lemma StepOpsSound(w: World, models: string -> Advanced, s: State, step: Step)
    requires OpsSound(w, models, s) && NamedStep(models, step)
    ensures OpsSound(w, models, Do(w, models, s, step))
  {
    match step
    case Tick(d) =>
    case Lookup(table, sql) => LookupOps(w, models, s, table, sql);
    case Change(kind, table, contents, affected) => ChangeOps(w, models, s, kind, table, contents, affected);
    case Read(q) => ReadOps(w, models, s, q);
    case Scan(x) => DropOps(w, models, s, step);
    case DeleteKey(x, key) => DropOps(w, models, s, step);
    case Finish(x) => DropOps(w, models, s, step);
    case _ => StoreOps(w, models, s, step);
  }

  lemma {:induction false} RunSound(w: World, models: string -> Advanced, now: int, tables: map<string, Contents>, steps: seq<Step>)
    requires Injective(w) && NamedSteps(models, steps)
    ensures var s := Run(w, models, Start(now, tables), steps); AllSound(w, models, s) && OpsSound(w, models, s)
  {
    hide Do, Sound, Named, QuerySound;
    if steps == [] {
      NothingCached(w, models, now, tables);
    } else {
      var n := |steps| - 1;
      var before := Run(w, models, Start(now, tables), steps[..n]);
      assert forall i :: 0 <= i < n ==> steps[..n][i] == steps[i];
      RunSound(w, models, now, tables, steps[..n]);
      assert NamedStep(models, steps[n]);
      StepOpsSound(w, models, before, steps[n]);
      forall t, other | Named(models, t) ensures Sound(w, models, Do(w, models, before, steps[n]), t, other) {
        StepSound(w, models, before, steps[n], t, other);
      }
    }
  }

  lemma NothingCached(w: World, models: string -> Advanced, now: int, tables: map<string, Contents>)
    ensures AllSound(w, models, Start(now, tables)) && OpsSound(w, models, Start(now, tables))
  {
  }

  // ---------------------------------------------------------------- theorems

  /** The result was evaluated on what the table holds now: no change has come since it was read. */
  predicate IsCurrent(s: State, key: string)
    requires key in s.origins
  {
    s.origins[key].read == VersionOf(s, s.origins[key].table)
  }

  /** No change of the table came between the read and the store of the result. */
  predicate StoredInTime(s: State, key: string)
    requires key in s.origins
  {
    s.origins[key].read == s.origins[key].stored
  }

  /** A change that came after the read has still to delete the key. */
  ghost predicate DropAwaited(s: State, key: string)
    requires key in s.origins
  {
    exists v: nat :: v > s.origins[key].read && Awaited(s, s.origins[key].table, v, key)
  }

  /**
   In every run a cached result of a guarded table is current if and only if no change of the table came
   between its read and its store, and none that came after the read has still to delete it.
   */
  lemma CurrentExactly(w: World, models: string -> Advanced, now: int, tables: map<string, Contents>, steps: seq<Step>, table: string, sql: string)
    requires Injective(w) && NamedSteps(models, steps) && Guarded(models, table)
    requires var s := Run(w, models, Start(now, tables), steps); Live(s.cache, s.now, KeyOf(w, models, table, sql)).Some?
    ensures
      var s, key := Run(w, models, Start(now, tables), steps), KeyOf(w, models, table, sql);
      && key in s.origins && s.origins[key].table == table
      && (IsCurrent(s, key) <==> StoredInTime(s, key) && !DropAwaited(s, key))
  {
    hide Run, KeyOf, Live;
    RunSound(w, models, now, tables, steps);
    var s, key := Run(w, models, Start(now, tables), steps), KeyOf(w, models, table, sql);
    assert Sound(w, models, s, table, sql);
    var o := s.origins[key];
    if StoredInTime(s, key) && !IsCurrent(s, key) {
      assert Awaited(s, table, VersionOf(s, table), key);
    }
  }

  /**
   In every run a query is answered with its rows on contents that its table has had: on those of now, when
   it is not answered from the cache, or when the cached result is current. The count of affected rows is
   the database's exactly when the answer is not from the cache or has one row.
   */
  lemma AnswersAreCurrent(w: World, models: string -> Advanced, now: int, tables: map<string, Contents>, steps: seq<Step>, table: string, sql: string)
    requires Injective(w) && NamedSteps(models, steps) && Guarded(models, table)
    ensures
      var s, key := Run(w, models, Start(now, tables), steps), KeyOf(w, models, table, sql);
      var answer := AnswerTo(w, models(table), s, table, sql);
      && (answer.hit ==> key in s.origins && answer.rows == w.eval(sql, s.origins[key].contents))
      && (answer.hit && StoredInTime(s, key) && !DropAwaited(s, key) ==> answer.rows == w.eval(sql, TableOf(s, table)))
      && (!answer.hit ==> answer.rows == w.eval(sql, TableOf(s, table)))
      && (answer.affected == |answer.rows| <==> !answer.hit || |answer.rows| == 1)
  {
    RunSound(w, models, now, tables, steps);
    var s, key := Run(w, models, Start(now, tables), steps), KeyOf(w, models, table, sql);
    hide Run, DataKey, UniqueId, Guarded;
    assert Sound(w, models, s, table, sql);
    if AnswerTo(w, models(table), s, table, sql).hit {
      CurrentExactly(w, models, now, tables, steps, table, sql);
    }
  }

  /**
   In every run a query is answered from the cache only as long as its result is younger than the expiry of its
   model, counted from when it was last stored, whatever was stored and dropped in between.
   */
  lemma HitsAreYoung(w: World, models: string -> Advanced, now: int, tables: map<string, Contents>, steps: seq<Step>, table: string, sql: string)
    requires Injective(w) && NamedSteps(models, steps) && Named(models, table)
    ensures
      var s, key := Run(w, models, Start(now, tables), steps), KeyOf(w, models, table, sql);
      AnswerTo(w, models(table), s, table, sql).hit ==>
        key in s.origins && s.origins[key].at <= s.now < s.origins[key].at + models(table).expire
  {
    RunSound(w, models, now, tables, steps);
    var s, key := Run(w, models, Start(now, tables), steps), KeyOf(w, models, table, sql);
    hide Run, DataKey, UniqueId, Guarded;
    assert Sound(w, models, s, table, sql);
  }

  /** A write that drops keys drops all the keys of its table that are live and none of another. */
  lemma WriteDropsItsTable(w: World, models: string -> Advanced, s: State, kind: Kind, table: string, contents: Contents, affected: int, t: string, sql: string)
    requires Named(models, table) && Named(models, t) && Drops(models(table), kind) && (kind == Create ==> affected > 0)
    ensures
      var r := DoWrite(models, s, kind, table, contents, affected);
      && var data, text := KeyOf(w, models, t, sql), TextKeyOf(w, models, t, sql);
      && (Live(r.cache, s.now, data) == if t == table then None else Live(s.cache, s.now, data))
      && (Live(r.cache, s.now, text) == if t == table then None else Live(s.cache, s.now, text))
      && (models(t).prefix in s.cache ==> models(t).prefix in r.cache)
  {
    hide DataKey, SqlKey, UniqueId, HasPrefix;
    KeyShape(w, models(t).prefix, t, sql);
    KeyOfTable(models(table).prefix, table, models(t).prefix, t, KeyTail(w, sql, "data"));
    KeyOfTable(models(table).prefix, table, models(t).prefix, t, KeyTail(w, sql, "sql"));
    BarePrefix(models(table).prefix, table, models(t).prefix);
  }

  /** A cached result of the table is dropped by a write if and only if a driver is set and a flag for that kind of write is. */
  lemma FlagsDecide(w: World, models: string -> Advanced, s: State, kind: Kind, table: string, contents: Contents, affected: int, sql: string)
    requires Named(models, table) && (kind == Create ==> affected > 0)
    requires Live(s.cache, s.now, KeyOf(w, models, table, sql)).Some?
    ensures
      var a, r := models(table), DoWrite(models, s, kind, table, contents, affected);
      var flag := match kind case Create => a.create case Update => a.update case Delete => a.delete;
      Live(r.cache, r.now, KeyOf(w, models, table, sql)) == None <==> a.driver && (a.updateDelete || flag)
  {
    hide DataKey, UniqueId, HasPrefix;
    if Drops(models(table), kind) {
      WriteDropsItsTable(w, models, s, kind, table, contents, affected, table, sql);
    }
  }

  /** Without the flag for queries, without a driver or without a positive expiry, nothing is cached, and without the first two nothing is served. */
  lemma NothingCachedWithout(w: World, models: string -> Advanced, s: State, table: string, sql: string)
    ensures
      var a := models(table);
      && (!a.query || !a.driver ==> !AnswerTo(w, a, s, table, sql).hit)
      && (!a.query || !a.driver || a.expire <= 0 ==> DoQuery(w, models, s, table, sql).cache == s.cache)
  {
    hide Stored;
  }

  lemma BarePrefix(prefix: string, table: string, p: string)
    requires Plain(p)
    ensures !HasPrefix(p, TablePrefix(prefix, table))
  {
    assert TablePrefix(prefix, table)[|prefix|] == ':';
  }

  // ---------------------------------------------------------------- stale answers

  lemma DistinctKeys(w: World, models: string -> Advanced, t: string, sql: string)
    ensures KeysApart(w, models, t, sql)
  {
    var p, data, text := models(t).prefix, KeyOf(w, models, t, sql), TextKeyOf(w, models, t, sql);
    assert data[|data| - 1] == 'a' && text[|text| - 1] == 'l';
    assert |data| > |p| && |text| > |p|;
  }

  /** Right after a query, without interruption, its result is in the cache and is current. */
  lemma QueryCaches(w: World, models: string -> Advanced, s: State, table: string, sql: string)
    requires var a := models(table); Caches(a) && a.expire > 0
    requires !AnswerTo(w, models(table), s, table, sql).hit && w.eval(sql, TableOf(s, table)) != []
    requires KeysApart(w, models, table, sql)
    ensures AnswerTo(w, models(table), DoQuery(w, models, s, table, sql), table, sql) == Answer(w.eval(sql, TableOf(s, table)), 1, true)
  {
    hide DataKey, SqlKey, UniqueId, Unique;
  }

  /** A result that is left alone is served until it expires, and not after. */
  lemma ServedUntilExpiry(w: World, models: string -> Advanced, s: State, table: string, sql: string, d: nat)
    requires var a := models(table); a.query && a.driver && a.expire > 0
    requires !AnswerTo(w, models(table), s, table, sql).hit && w.eval(sql, TableOf(s, table)) != []
    ensures
      var r := Do(w, models, DoQuery(w, models, s, table, sql), Tick(d));
      AnswerTo(w, models(table), r, table, sql).hit <==> d < models(table).expire
  {
    DistinctKeys(w, models, table, sql);
    hide DataKey, SqlKey, UniqueId, Unique;
  }

  /** Without the flag for a kind of write, an answer cached before it is given after it, current or not. */
  lemma StaleWithoutFlag(w: World, models: string -> Advanced, s: State, kind: Kind, table: string, sql: string, contents: Contents)
    requires Caches(models(table)) && models(table).expire > 0 && !Drops(models(table), kind)
    requires !AnswerTo(w, models(table), s, table, sql).hit && w.eval(sql, TableOf(s, table)) != []
    ensures
      var answer := AnswerTo(w, models(table), DoWrite(models, DoQuery(w, models, s, table, sql), kind, table, contents, 1), table, sql);
      answer.hit && answer.rows == w.eval(sql, TableOf(s, table))
  {
    DistinctKeys(w, models, table, sql);
    hide DataKey, SqlKey, UniqueId, Unique, DoQuery;
    QueryCaches(w, models, s, table, sql);
  }

  /** With the empty prefix a write drops nothing, and answers cached before it are given after it. */
  lemma StaleWithoutPrefix(w: World, models: string -> Advanced, s: State, kind: Kind, table: string, sql: string, contents: Contents)
    requires models(table).prefix == "" && Caches(models(table)) && models(table).expire > 0
    requires !AnswerTo(w, models(table), s, table, sql).hit && w.eval(sql, TableOf(s, table)) != []
    ensures
      var answer := AnswerTo(w, models(table), DoWrite(models, DoQuery(w, models, s, table, sql), kind, table, contents, 1), table, sql);
      answer.hit && answer.rows == w.eval(sql, TableOf(s, table))
  {
    DistinctKeys(w, models, table, sql);
    hide DataKey, SqlKey, UniqueId, Unique, DoQuery;
    QueryCaches(w, models, s, table, sql);
    var r := DoQuery(w, models, s, table, sql);
    assert r.cache - {} == r.cache;
  }

  /** With a colon in a name, a write to one table drops the keys of another. */
  lemma ColonsMixTables(w: World, a: Advanced, c: Cache, now: int, table: string, other: string, sql: string)
    requires a.prefix != "" && table != ""
    ensures Live(TableDropped(c, now, a, table), now, DataKey(a.prefix, UniqueId(w, table + ":" + other, sql))) == None
  {
    var key := DataKey(a.prefix, UniqueId(w, table + ":" + other, sql));
    assert key == TablePrefix(a.prefix, table) + (other + ":" + w.hash(sql) + ":" + "data");
  }
}
