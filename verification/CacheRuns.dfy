/**
 Particular runs of the query cache: one that leaves an old result behind, and queries and writes that
 nothing comes between.
 */
module CacheRuns {
  import opened Text
  import opened QueryCache
  import opened CacheCoherence

  // ---------------------------------------------------------------- a run with a late store

  lemma RunSnoc(w: World, models: string -> Advanced, start: State, steps: seq<Step>, x: Step)
    ensures Run(w, models, start, steps + [x]) == Do(w, models, Run(w, models, start, steps), x)
  {
    assert (steps + [x])[..|steps|] == steps;
  }

  lemma RunTwo(w: World, models: string -> Advanced, start: State, steps: seq<Step>, x: Step, y: Step)
    ensures Run(w, models, start, steps + [x, y]) == Do(w, models, Do(w, models, Run(w, models, start, steps), x), y)
  {
    hide Run, Do;
    RunSnoc(w, models, start, steps, x);
    RunSnoc(w, models, start, steps + [x], y);
    assert steps + [x] + [y] == steps + [x, y];
  }

  lemma RunFour(w: World, models: string -> Advanced, start: State, steps: seq<Step>, x: Step, y: Step, z: Step, u: Step)
    ensures
      Run(w, models, start, steps + [x, y, z, u]) ==
      Do(w, models, Do(w, models, Do(w, models, Do(w, models, Run(w, models, start, steps), x), y), z), u)
  {
    hide Run, Do;
    RunTwo(w, models, start, steps, x, y);
    RunTwo(w, models, start, steps + [x, y], z, u);
    assert steps + [x, y] + [z, u] == steps + [x, y, z, u];
  }

  /** The first two steps of a store, for the only query under way. */
  lemma DataSteps(w: World, models: string -> Advanced, s: State, q: nat, x: Query)
    requires x.HasRead? && s.queries == map[q := x] && Stores(models(x.table), x.rows)
    ensures
      var a, key := models(x.table), KeyOf(w, models, x.table, x.sql);
      DoSetText(w, models, DoSetData(w, models, s, q), q) ==
      s.(queries := map[q := TextSet(x.table, x.sql)],
         cache := s.cache[key := Entry(Data(x.rows), Some(s.now + a.expire))]
                         [TextKeyOf(w, models, x.table, x.sql) := Entry(Sql(x.sql), Some(s.now + a.expire))],
         origins := s.origins[key := Origin(x.table, x.sql, x.contents, x.read, VersionOf(s, x.table), s.now)])
  {
    hide DataKey, SqlKey, UniqueId;
    var s1 := DoSetData(w, models, s, q);
    assert s1.queries == map[q := DataSet(x.table, x.sql)];
  }

  /** The last two. */
  lemma KeysSteps(w: World, models: string -> Advanced, s: State, q: nat, table: string, sql: string)
    requires s.queries == map[q := TextSet(table, sql)]
    ensures
      var a := models(table);
      DoSetKeys(w, models, DoGetKeys(models, s, q), q) ==
      s.(queries := map[], cache := s.cache[a.prefix := Entry(Keys(Unique(Recorded(s.cache, s.now, a.prefix) + OwnKeys(w, a, table, sql))), None)])
  {
    hide OwnKeys, Unique, Recorded;
    var s3 := DoGetKeys(models, s, q);
    assert s3.queries == map[q := KeysGot(table, sql, Recorded(s.cache, s.now, models(table).prefix))];
    assert s3.queries - {q} == map[];
  }

  /** The four steps of a store, for the only query under way. */
  lemma StoreSteps(w: World, models: string -> Advanced, s: State, q: nat, x: Query)
    requires x.HasRead? && s.queries == map[q := x] && Stores(models(x.table), x.rows)
    requires KeysApart(w, models, x.table, x.sql)
    ensures
      var a := models(x.table);
      DoSetKeys(w, models, DoGetKeys(models, DoSetText(w, models, DoSetData(w, models, s, q), q), q), q) ==
      s.(queries := map[],
         cache := Stored(s.cache, s.now, a, UniqueId(w, x.table, x.sql), x.rows, x.sql),
         origins := s.origins[KeyOf(w, models, x.table, x.sql) := Origin(x.table, x.sql, x.contents, x.read, VersionOf(s, x.table), s.now)])
  {
    hide DataKey, SqlKey, UniqueId, Unique, DoSetData, DoSetText, DoGetKeys, DoSetKeys;
    var r := DoSetText(w, models, DoSetData(w, models, s, q), q);
    DataSteps(w, models, s, q, x);
    KeysSteps(w, models, r, q, x.table, x.sql);
    assert OwnKeys(w, models(x.table), x.table, x.sql) == [KeyOf(w, models, x.table, x.sql), TextKeyOf(w, models, x.table, x.sql)];
  }

  /** A query misses and reads; then an update changes the table and drops its keys, before the query has stored anything. */
  lemma ReadBeforeUpdate(w: World, models: string -> Advanced, now: int, t: string, sql: string, before: Contents, after: Contents)
    requires Drops(models(t), Update)
    ensures
      var start := Start(now, map[t := before]);
      var s2 := Do(w, models, Do(w, models, start, Lookup(t, sql)), Read(0));
      Do(w, models, Do(w, models, Do(w, models, s2, Change(Update, t, after, 1)), Scan(1)), Finish(1)) ==
      State(now, map[t := after], map[t := 1], map[], map[], map[0 := HasRead(t, sql, w.eval(sql, before), before, 0)], map[], 2)
  {
    hide UniqueId, DataKey, HasPrefix, TablePrefix;
    var s1 := Do(w, models, Start(now, map[t := before]), Lookup(t, sql));
    assert s1 == State(now, map[t := before], map[], map[], map[], map[0 := Missed(t, sql)], map[], 1);
    var s2 := Do(w, models, s1, Read(0));
    assert s2 == State(now, map[t := before], map[], map[], map[], map[0 := HasRead(t, sql, w.eval(sql, before), before, 0)], map[], 1);
    var s3 := Do(w, models, s2, Change(Update, t, after, 1));
    assert s3.writes == map[1 := Changed(t, 1)] && s3.tables == map[t := after] && s3.versions == map[t := 1];
    assert TableKeys(map[], now, models(t), t) == {};
    var s4 := Do(w, models, s3, Scan(1));
    assert s4.writes == map[1 := Dropping(t, 1, {})];
    assert s4.writes - {1} == map[];
  }

  /** Nothing is under way, and the cache answers with the rows of `before` while the table holds `after`. */
  ghost predicate AnswersWithOldRows(w: World, models: string -> Advanced, s: State, t: string, sql: string, before: Contents, after: Contents)
  {
    && s.queries == map[] && s.writes == map[] && TableOf(s, t) == after
    && AnswerTo(w, models(t), s, t, sql) == Answer(w.eval(sql, before), 1, true)
  }

  /**
   With every flag on, a query that reads before an update and stores after it leaves the old rows in the
   cache, and they answer queries when nothing is under way any more.
   */
  lemma LateStoreServesOldRows(w: World, models: string -> Advanced, now: int, t: string, sql: string, before: Contents, after: Contents)
    requires Guarded(models, t) && Caches(models(t)) && models(t).expire > 0 && w.eval(sql, before) != []
    ensures exists steps :: AnswersWithOldRows(w, models, Run(w, models, Start(now, map[t := before]), steps), t, sql, before, after)
  {
    var start := Start(now, map[t := before]);
    var half := [Lookup(t, sql), Read(0)];
    var middle := half + [Change(Update, t, after, 1), Scan(1)] + [Finish(1)];
    var x := HasRead(t, sql, w.eval(sql, before), before, 0);
    var s := State(now, map[t := after], map[t := 1], map[], map[], map[0 := x], map[], 2);
    assert Run(w, models, start, middle) == s by {
      hide Run, Do;
      RunTwo(w, models, start, [], Lookup(t, sql), Read(0));
      assert [] + half == half;
      RunTwo(w, models, start, half, Change(Update, t, after, 1), Scan(1));
      RunSnoc(w, models, start, half + [Change(Update, t, after, 1), Scan(1)], Finish(1));
      EmptyRun(w, models, start);
      ReadBeforeUpdate(w, models, now, t, sql, before, after);
    }
    DistinctKeys(w, models, t, sql);
    RunFour(w, models, start, middle, SetData(0), SetText(0), GetKeys(0), SetKeys(0));
    hide Run;
    var steps := middle + [SetData(0), SetText(0), GetKeys(0), SetKeys(0)];
    StoreSteps(w, models, s, 0, x);
    assert AnswersWithOldRows(w, models, Run(w, models, start, steps), t, sql, before, after) by {
      hide DataKey, SqlKey, UniqueId, Unique;
    }
  }

  lemma EmptyRun(w: World, models: string -> Advanced, start: State)
    ensures Run(w, models, start, []) == start
  {
  }

  // ---------------------------------------------------------------- queries and writes taken alone

  /** The steps of a query that nothing comes between; a hit has only the first of them. */
  function QueryAlone(w: World, models: string -> Advanced, s: State, table: string, sql: string): State
  {
    var q := s.started;
    DoSetKeys(w, models, DoGetKeys(models, DoSetText(w, models, DoSetData(w, models, DoRead(w, DoLookup(w, models(table), s, table, sql), q), q), q), q), q)
  }

  lemma NothingToStore(w: World, models: string -> Advanced, s: State, q: nat)
    requires q !in s.queries
    ensures DoSetKeys(w, models, DoGetKeys(models, DoSetText(w, models, DoSetData(w, models, s, q), q), q), q) == s
  {
  }

  lemma QueryAloneIsQuery(w: World, models: string -> Advanced, s: State, table: string, sql: string)
    requires s.queries == map[]
    ensures QueryAlone(w, models, s, table, sql) == DoQuery(w, models, s, table, sql)
  {
    hide DataKey, SqlKey, UniqueId, Unique, Stored, DoSetText, DoGetKeys, DoSetKeys;
    var q := s.started;
    if AnswerTo(w, models(table), s, table, sql).hit {
      NothingToStore(w, models, s, q);
    } else {
      var rows, contents := w.eval(sql, TableOf(s, table)), TableOf(s, table);
      var x := HasRead(table, sql, rows, contents, VersionOf(s, table));
      var r := DoRead(w, DoLookup(w, models(table), s, table, sql), q);
      assert r == s.(started := q + 1, queries := map[q := x]);
      if Stores(models(table), rows) {
        DistinctKeys(w, models, table, sql);
        StoreSteps(w, models, r, q, x);
      } else {
        assert r.queries - {q} == map[];
        NothingToStore(w, models, r.(queries := map[]), q);
      }
    }
  }

  /** The deletions of a write, in some order. */
  function DeleteAll(s: State, x: nat, keys: seq<string>): State
    decreases |keys|
  {
    if keys == [] then s else DeleteAll(DoDeleteKey(s, x, keys[0]), x, keys[1..])
  }

  lemma {:induction false} DeletesAll(s: State, x: nat, y: Write, keys: seq<string>)
    requires y.Dropping? && s.writes == map[x := y] && (forall k :: k in y.todo <==> k in keys)
    requires forall i, j :: 0 <= i < j < |keys| ==> keys[i] != keys[j]
    ensures DeleteAll(s, x, keys) == s.(cache := s.cache - y.todo, writes := map[x := y.(todo := {})])
    decreases |keys|
  {
    if keys == [] {
      assert y.todo == {} && s.cache - {} == s.cache;
    } else {
      var r := DoDeleteKey(s, x, keys[0]);
      var z := y.(todo := y.todo - {keys[0]});
      assert r.writes == map[x := z];
      DeletesAll(r, x, z, keys[1..]);
      assert r.cache - z.todo == s.cache - y.todo;
    }
  }

  /** The steps of a write that nothing comes between, its keys deleted in the order given. */
  function WriteAlone(models: string -> Advanced, s: State, kind: Kind, table: string, contents: Contents, affected: int, keys: seq<string>): State
  {
    var x := s.started;
    DoFinish(DeleteAll(DoScan(models, DoChange(models, s, kind, table, contents, affected), x), x, keys), x)
  }

  /** In whatever order the keys of the table are deleted. */
  lemma WriteAloneIsWrite(models: string -> Advanced, s: State, kind: Kind, table: string, contents: Contents, affected: int, keys: seq<string>)
    requires s.writes == map[] && Drops(models(table), kind) && (kind == Create ==> affected > 0)
    requires forall k :: k in keys <==> k in TableKeys(s.cache, s.now, models(table), table)
    requires forall i, j :: 0 <= i < j < |keys| ==> keys[i] != keys[j]
    ensures WriteAlone(models, s, kind, table, contents, affected, keys) == DoWrite(models, s, kind, table, contents, affected)
  {
    hide TableKeys, DeleteAll;
    var x, version := s.started, VersionOf(s, table) + 1;
    var c := DoChange(models, s, kind, table, contents, affected);
    assert c.writes == map[x := Changed(table, version)];
    var d := DoScan(models, c, x);
    var y := Dropping(table, version, TableKeys(s.cache, s.now, models(table), table));
    assert d.writes == map[x := y];
    DeletesAll(d, x, y, keys);
    assert map[x := y.(todo := {})] - {x} == map[];
  }

  /** A write without a flag for its kind has nothing to drop, and a creation that affects no row does nothing at all. */
  lemma WriteAloneDropsNothing(models: string -> Advanced, s: State, kind: Kind, table: string, contents: Contents, affected: int, keys: seq<string>)
    requires s.writes == map[] && (!Drops(models(table), kind) || (kind == Create && affected <= 0))
    ensures
      var r := WriteAlone(models, s, kind, table, contents, affected, keys);
      && r == DoWrite(models, s, kind, table, contents, affected) && r.cache == s.cache
      && (if kind == Create && affected <= 0 then r == s else TableOf(r, table) == contents)
  {
    hide DeleteAll, TableKeys;
    var c := DoChange(models, s, kind, table, contents, affected);
    assert c.writes == map[];
    NothingToDelete(c, s.started, keys);
  }

  lemma {:induction false} NothingToDelete(s: State, x: nat, keys: seq<string>)
    requires x !in s.writes
    ensures DeleteAll(s, x, keys) == s
    decreases |keys|
  {
    if keys != [] {
      NothingToDelete(s, x, keys[1..]);
    }
  }
}
