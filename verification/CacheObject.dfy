/**
 The plugin and its memory driver as an object over the shared cache. Each method runs without
 interruption, and leaves the state as the steps of module QueryCache do when nothing comes between them.
 */
module CacheObject {
  import opened Text
  import opened QueryCache
  import opened CacheCoherence
  import opened CacheRuns

  class CachePlugin {
    const world: World
    const models: string -> Advanced
    var now: int
    var tables: map<string, Contents>
    var versions: map<string, nat>
    var cache: Cache
    var origins: map<string, Origin>
    var started: nat

    constructor (world: World, models: string -> Advanced, now: int, tables: map<string, Contents>)
      ensures this.world == world && this.models == models && State() == Start(now, tables)
    {
      this.world, this.models, this.now, this.tables := world, models, now, tables;
      versions, cache, origins, started := map[], map[], map[], 0;
    }

    /** No query and no write is under way. */
    function State(): State
      reads this
    {
      QueryCache.State(now, tables, versions, cache, origins, map[], map[], started)
    }

    // -------------------------------------------------------------- the driver

    method Set(a: Advanced, uniqueId: string, rows: Rows, sql: string)
      modifies this`cache
      ensures cache == Stored(old(cache), now, a, uniqueId, rows, sql)
      ensures a.expire <= 0 ==> cache == old(cache)
    {
      if a.expire <= 0 {
        return;
      }
      var dataKey, sqlKey := DataKey(a.prefix, uniqueId), SqlKey(a.prefix, uniqueId);
      cache := cache[dataKey := Entry(Data(rows), Some(now + a.expire))];
      cache := cache[sqlKey := Entry(Sql(sql), Some(now + a.expire))];
      var keys: seq<string> := [];
      var recorded := Live(cache, now, a.prefix);
      if recorded.Some? && recorded.value.Keys? {
        keys := recorded.value.keys;
      }
      cache := cache[a.prefix := Entry(Keys(Unique(keys + [dataKey, sqlKey])), None)];
    }

    method Get(a: Advanced, uniqueId: string) returns (rows: Option<Rows>)
      ensures rows == match Fetched(cache, now, a, uniqueId) case Some(Data(rows)) => Some(rows) case _ => None
    {
      var found := Live(cache, now, DataKey(a.prefix, uniqueId));
      return match found case Some(Data(rows)) => Some(rows) case _ => None;
    }

    /** Deletes the recorded keys one by one. */
    method Delete(a: Advanced)
      modifies this`cache
      ensures cache == Dropped(old(cache), now, a)
    {
      var keys := Recorded(cache, now, a.prefix);
      for i := 0 to |keys|
        invariant cache == map k | k in old(cache) && k !in keys[..i] :: old(cache)[k]
      {
        cache := cache - {keys[i]};
        assert keys[..i + 1] == keys[..i] + [keys[i]];
      }
      assert keys[..|keys|] == keys;
    }

    // -------------------------------------------------------------- the plugin

    /** Goes through the live keys and deletes those of the table. */
    method DeleteCacheByTable(a: Advanced, table: string)
      modifies this`cache
      ensures cache == TableDropped(old(cache), now, a, table)
    {
      if a.prefix == "" || table == "" {
        assert cache - {} == cache;
        return;
      }
      var prefix := TablePrefix(a.prefix, table);
      var items := set k | k in cache && Live(cache, now, k).Some?;
      ghost var todo := TableKeys(cache, now, a, table);
      while items != {}
        invariant items <= old(cache).Keys && forall k :: k in todo ==> k in items || k !in cache
        invariant forall k :: k in items && HasPrefix(k, prefix) ==> k in todo
        invariant cache == old(cache) - (todo - items)
        decreases items
      {
        var key :| key in items;
        items := items - {key};
        if HasPrefix(key, prefix) {
          cache := cache - {key};
        }
      }
      assert todo - items == todo;
    }

    /** The hook before a query: the cached rows, if the model uses the cache and there are any. */
    method Before(table: string, sql: string) returns (cached: Option<Rows>)
      ensures cached.Some? <==> AnswerTo(world, models(table), State(), table, sql).hit
      ensures cached.Some? ==> AnswerTo(world, models(table), State(), table, sql) == Answer(cached.value, 1, true)
    {
      if !Caches(models(table)) {
        return None;
      }
      cached := Get(models(table), UniqueId(world, table, sql));
    }

    /** The hook after a query that has missed: the rows are stored, with what they were read from. */
    method AfterQuery(table: string, sql: string, rows: Rows)
      modifies this`cache, this`origins
      ensures
        var id, a := UniqueId(world, table, sql), models(table);
        && cache == (if Stores(a, rows) then Stored(old(cache), now, a, id, rows, sql) else old(cache))
        && origins == (if Stores(a, rows)
                       then old(origins)[DataKey(a.prefix, id) := Origin(table, sql, TableOf(State(), table), VersionOf(State(), table), VersionOf(State(), table), now)]
                       else old(origins))
    {
      var a := models(table);
      if |rows| <= 0 || !Caches(a) || a.expire <= 0 {
        return;
      }
      var id, version := UniqueId(world, table, sql), if table in versions then versions[table] else 0;
      Set(a, id, rows, sql);
      origins := origins[DataKey(a.prefix, id) := Origin(table, sql, if table in tables then tables[table] else [], version, version, now)];
    }

    /** A query with its hooks: the steps of a query, and the answer that the state gives. */
    method Query(table: string, sql: string) returns (answer: Answer)
      modifies this`cache, this`origins, this`started
      ensures answer == AnswerTo(world, models(table), old(State()), table, sql)
      ensures State() == QueryAlone(world, models, old(State()), table, sql)
    {
      hide QueryAlone, Stored, Stores, DataKey, UniqueId;
      QueryAloneIsQuery(world, models, State(), table, sql);
      var cached := Before(table, sql);
      if cached.Some? {
        return Answer(cached.value, 1, true);
      }
      started := started + 1;
      var rows := world.eval(sql, if table in tables then tables[table] else []);
      answer := Answer(rows, |rows|, false);
      AfterQuery(table, sql, rows);
    }

    /** The hook after a write drops the keys of the table when the flag for its kind is set. */
    method AfterWrite(kind: Kind, table: string)
      modifies this`cache, this`started
      ensures cache == if Drops(models(table), kind) then TableDropped(old(cache), now, models(table), table) else old(cache)
      ensures started == if Drops(models(table), kind) then old(started) + 1 else old(started)
    {
      if !Drops(models(table), kind) {
        return;
      }
      started := started + 1;
      DeleteCacheByTable(models(table), table);
    }

    /** A write with its hook: the steps of a write, whatever the order in which the keys are deleted. */
    method Write(kind: Kind, table: string, contents: Contents, affected: int)
      modifies this`cache, this`tables, this`versions, this`started
      ensures State() == DoWrite(models, old(State()), kind, table, contents, affected)
    {
      if kind == Create && affected <= 0 {
        return;
      }
      versions := versions[table := (if table in versions then versions[table] else 0) + 1];
      tables := tables[table := contents];
      AfterWrite(kind, table);
    }
  }
}
