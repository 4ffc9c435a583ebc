/**
 The query cache with its memory driver: results are kept under keys made of a prefix, the table and a
 hash of the SQL text, and a write to a table drops the keys of that table. The database is one value per
 table; evaluating SQL depends on the text and on its table.
 */
module QueryCache {
  import opened Text

  type Rows = seq<string>

  type Contents = seq<string>

  /** The evaluation of SQL, and the hash of its text, in which different texts do not meet. */
  datatype World = World(eval: (string, Contents) -> Rows, hash: string -> string)

  ghost predicate Injective(w: World) { forall a: string, b: string :: w.hash(a) == w.hash(b) ==> a == b }

  /** How a model uses the cache; `driver` says whether one is set, and `expire` is in seconds. */
  datatype Advanced = Advanced(create: bool, query: bool, update: bool, delete: bool, updateDelete: bool, prefix: string, driver: bool, expire: int)

  datatype Value = Data(rows: Rows) | Sql(text: string) | Keys(keys: seq<string>)

  /** An entry without an expiry stays. */
  datatype Entry = Entry(value: Value, expiresAt: Option<int>)

  type Cache = map<string, Entry>

  /** Where a stored result comes from: the contents it was evaluated on, the versions of the table when it was read and stored, and when it was stored. */
  datatype Origin = Origin(table: string, sql: string, contents: Contents, read: nat, stored: nat, at: int)

  /** A query that has missed the cache, between two of its steps. */
  datatype Query =
    | Missed(table: string, sql: string)
    | HasRead(table: string, sql: string, rows: Rows, contents: Contents, read: nat)
    | DataSet(table: string, sql: string)
    | TextSet(table: string, sql: string)
    | KeysGot(table: string, sql: string, keys: seq<string>)

  /** A write that has changed its table and has to drop keys: before it has listed them, and after. */
  datatype Write = Changed(table: string, version: nat) | Dropping(table: string, version: nat, todo: set<string>)

  /** A table's version counts its changes. */
  datatype State = State(
    now: int,
    tables: map<string, Contents>,
    versions: map<string, nat>,
    cache: Cache,
    origins: map<string, Origin>,
    queries: map<nat, Query>,
    writes: map<nat, Write>,
    started: nat)

  // ---------------------------------------------------------------- the memory driver

  function UniqueId(w: World, table: string, sql: string): string { table + ":" + w.hash(sql) }

  function DataKey(prefix: string, uniqueId: string): string { prefix + ":" + uniqueId + ":" + "data" }

  function SqlKey(prefix: string, uniqueId: string): string { prefix + ":" + uniqueId + ":" + "sql" }

  function Live(c: Cache, now: int, key: string): Option<Value>
  {
    if key in c && (c[key].expiresAt.Some? ==> now < c[key].expiresAt.value) then Some(c[key].value) else None
  }

  /** The keys recorded for a prefix. */
  function Recorded(c: Cache, now: int, prefix: string): seq<string>
  {
    match Live(c, now, prefix)
    case Some(Keys(keys)) => keys
    case _ => []
  }

  function Unique(s: seq<string>): (r: seq<string>)
    ensures forall x :: x in r <==> x in s
    ensures forall i, j :: 0 <= i < j < |r| ==> r[i] != r[j]
  {
    if s == [] then []
    else
      var front := Unique(s[..|s| - 1]);
      var last := s[|s| - 1];
      assert forall x :: x in s <==> x in s[..|s| - 1] || x == last;
      if last in front then front else front + [last]
  }

  function Stored(c: Cache, now: int, a: Advanced, uniqueId: string, rows: Rows, sql: string): Cache
  {
    if a.expire <= 0 then c
    else
      var data, text, due := DataKey(a.prefix, uniqueId), SqlKey(a.prefix, uniqueId), Some(now + a.expire);
      var c := c[data := Entry(Data(rows), due)][text := Entry(Sql(sql), due)];
      c[a.prefix := Entry(Keys(Unique(Recorded(c, now, a.prefix) + [data, text])), None)]
  }

  function Fetched(c: Cache, now: int, a: Advanced, uniqueId: string): Option<Value>
  {
    Live(c, now, DataKey(a.prefix, uniqueId))
  }

  /** The driver's own deletion: every key recorded for the prefix. */
  function Dropped(c: Cache, now: int, a: Advanced): Cache
  {
    map k | k in c && k !in Recorded(c, now, a.prefix) :: c[k]
  }

  // ---------------------------------------------------------------- the plugin

  predicate HasPrefix(s: string, prefix: string) { prefix <= s }

  function TablePrefix(prefix: string, table: string): string { prefix + ":" + table + ":" }

  /** The keys of one table that have not expired; without a prefix or a table there are none. */
  function TableKeys(c: Cache, now: int, a: Advanced, table: string): set<string>
  {
    if a.prefix == "" || table == "" then {}
    else set k | k in c && Live(c, now, k).Some? && HasPrefix(k, TablePrefix(a.prefix, table))
  }

  function TableDropped(c: Cache, now: int, a: Advanced, table: string): Cache { c - TableKeys(c, now, a, table) }

  datatype Kind = Create | Update | Delete

  predicate Drops(a: Advanced, kind: Kind)
  {
    a.driver && (a.updateDelete || (match kind case Create => a.create case Update => a.update case Delete => a.delete))
  }

  /** What a query gives: rows, the count of affected rows, and whether they came from the cache. */
  datatype Answer = Answer(rows: Rows, affected: int, hit: bool)

  function TableOf(s: State, table: string): Contents { if table in s.tables then s.tables[table] else [] }

  function VersionOf(s: State, table: string): nat { if table in s.versions then s.versions[table] else 0 }

  predicate Caches(a: Advanced) { a.query && a.driver }

  function AnswerTo(w: World, a: Advanced, s: State, table: string, sql: string): Answer
  {
    match (if Caches(a) then Fetched(s.cache, s.now, a, UniqueId(w, table, sql)) else None)
    case Some(Data(rows)) => Answer(rows, 1, true)
    case _ =>
      var rows := w.eval(sql, TableOf(s, table));
      Answer(rows, |rows|, false)
  }

  // ---------------------------------------------------------------- a query, step by step

  /** The hook before a query: a hit answers it, and a miss lets it go on to the database. */
  function DoLookup(w: World, a: Advanced, s: State, table: string, sql: string): State
  {
    if AnswerTo(w, a, s, table, sql).hit then s
    else s.(queries := s.queries[s.started := Missed(table, sql)], started := s.started + 1)
  }

  function DoRead(w: World, s: State, q: nat): State
  {
    if q !in s.queries || !s.queries[q].Missed? then s
    else
      var x, contents := s.queries[q], TableOf(s, s.queries[q].table);
      s.(queries := s.queries[q := HasRead(x.table, x.sql, w.eval(x.sql, contents), contents, VersionOf(s, x.table))])
  }

  predicate Stores(a: Advanced, rows: Rows) { rows != [] && Caches(a) && a.expire > 0 }

  /** The hook after a query, when there are rows: it sets the data, the text, and the list of keys, which it reads first. */
  function DoSetData(w: World, models: string -> Advanced, s: State, q: nat): State
  {
    if q !in s.queries || !s.queries[q].HasRead? then s
    else
      var x, a := s.queries[q], models(s.queries[q].table);
      if !Stores(a, x.rows) then s.(queries := s.queries - {q})
      else
        var key := DataKey(a.prefix, UniqueId(w, x.table, x.sql));
        s.(cache := s.cache[key := Entry(Data(x.rows), Some(s.now + a.expire))],
           origins := s.origins[key := Origin(x.table, x.sql, x.contents, x.read, VersionOf(s, x.table), s.now)],
           queries := s.queries[q := DataSet(x.table, x.sql)])
  }

  function DoSetText(w: World, models: string -> Advanced, s: State, q: nat): State
  {
    if q !in s.queries || !s.queries[q].DataSet? then s
    else
      var x, a := s.queries[q], models(s.queries[q].table);
      s.(cache := s.cache[SqlKey(a.prefix, UniqueId(w, x.table, x.sql)) := Entry(Sql(x.sql), Some(s.now + a.expire))],
         queries := s.queries[q := TextSet(x.table, x.sql)])
  }

  function DoGetKeys(models: string -> Advanced, s: State, q: nat): State
  {
    if q !in s.queries || !s.queries[q].TextSet? then s
    else
      var x := s.queries[q];
      s.(queries := s.queries[q := KeysGot(x.table, x.sql, Recorded(s.cache, s.now, models(x.table).prefix))])
  }

  function OwnKeys(w: World, a: Advanced, table: string, sql: string): seq<string>
  {
    [DataKey(a.prefix, UniqueId(w, table, sql)), SqlKey(a.prefix, UniqueId(w, table, sql))]
  }

  function DoSetKeys(w: World, models: string -> Advanced, s: State, q: nat): State
  {
    if q !in s.queries || !s.queries[q].KeysGot? then s
    else
      var x, a := s.queries[q], models(s.queries[q].table);
      s.(cache := s.cache[a.prefix := Entry(Keys(Unique(x.keys + OwnKeys(w, a, x.table, x.sql))), None)],
         queries := s.queries - {q})
  }

  // ---------------------------------------------------------------- a write, step by step

  /** The database changes its table as it likes; a creation that affects no row leaves the table as it is. */
  function DoChange(models: string -> Advanced, s: State, kind: Kind, table: string, contents: Contents, affected: int): State
  {
    if kind == Create && affected <= 0 then s
    else
      var version := VersionOf(s, table) + 1;
      var s := s.(tables := s.tables[table := contents], versions := s.versions[table := version]);
      if Drops(models(table), kind) then s.(writes := s.writes[s.started := Changed(table, version)], started := s.started + 1) else s
  }

  /** The hook after a write lists the keys of its table, and then deletes one after the other. */
  function DoScan(models: string -> Advanced, s: State, x: nat): State
  {
    if x !in s.writes || !s.writes[x].Changed? then s
    else
      var y := s.writes[x];
      s.(writes := s.writes[x := Dropping(y.table, y.version, TableKeys(s.cache, s.now, models(y.table), y.table))])
  }

  function DoDeleteKey(s: State, x: nat, key: string): State
  {
    if x !in s.writes || !s.writes[x].Dropping? || key !in s.writes[x].todo then s
    else s.(cache := s.cache - {key}, writes := s.writes[x := s.writes[x].(todo := s.writes[x].todo - {key})])
  }

  function DoFinish(s: State, x: nat): State
  {
    if x in s.writes && s.writes[x].Dropping? && s.writes[x].todo == {} then s.(writes := s.writes - {x}) else s
  }

  // ---------------------------------------------------------------- runs

  datatype Step =
    | Tick(d: nat)
    | Lookup(table: string, sql: string)
    | Read(q: nat)
    | SetData(q: nat)
    | SetText(q: nat)
    | GetKeys(q: nat)
    | SetKeys(q: nat)
    | Change(kind: Kind, table: string, contents: Contents, affected: int)
    | Scan(x: nat)
    | DeleteKey(x: nat, key: string)
    | Finish(x: nat)

  /** Each table has one model, and so one way to use the cache. */
  function Do(w: World, models: string -> Advanced, s: State, step: Step): State
  {
    match step
    case Tick(d) => s.(now := s.now + d)
    case Lookup(table, sql) => DoLookup(w, models(table), s, table, sql)
    case Read(q) => DoRead(w, s, q)
    case SetData(q) => DoSetData(w, models, s, q)
    case SetText(q) => DoSetText(w, models, s, q)
    case GetKeys(q) => DoGetKeys(models, s, q)
    case SetKeys(q) => DoSetKeys(w, models, s, q)
    case Change(kind, table, contents, affected) => DoChange(models, s, kind, table, contents, affected)
    case Scan(x) => DoScan(models, s, x)
    case DeleteKey(x, key) => DoDeleteKey(s, x, key)
    case Finish(x) => DoFinish(s, x)
  }

  function Start(now: int, tables: map<string, Contents>): State { State(now, tables, map[], map[], map[], map[], map[], 0) }

  function Run(w: World, models: string -> Advanced, start: State, steps: seq<Step>): State
  {
    if steps == [] then start else Do(w, models, Run(w, models, start, steps[..|steps| - 1]), steps[|steps| - 1])
  }

  // ---------------------------------------------------------------- without interruption

  /** What a query leaves that nothing comes between. */
  function DoQuery(w: World, models: string -> Advanced, s: State, table: string, sql: string): State
  {
    var a, answer := models(table), AnswerTo(w, models(table), s, table, sql);
    if answer.hit then s
    else
      var s := s.(started := s.started + 1);
      if !Stores(a, answer.rows) then s
      else
        var id, version := UniqueId(w, table, sql), VersionOf(s, table);
        s.(cache := Stored(s.cache, s.now, a, id, answer.rows, sql),
           origins := s.origins[DataKey(a.prefix, id) := Origin(table, sql, TableOf(s, table), version, version, s.now)])
  }

  /** What a write leaves that nothing comes between. */
  function DoWrite(models: string -> Advanced, s: State, kind: Kind, table: string, contents: Contents, affected: int): State
  {
    if kind == Create && affected <= 0 then s
    else
      var s := s.(tables := s.tables[table := contents], versions := s.versions[table := VersionOf(s, table) + 1]);
      if Drops(models(table), kind) then s.(cache := TableDropped(s.cache, s.now, models(table), table), started := s.started + 1) else s
  }

  // ---------------------------------------------------------------- keys

  /** A prefix and a table that the key format keeps apart from others. */
  predicate Plain(name: string) { name != "" && Free(name, ':') }

  lemma FirstPart(a: string, x: string, b: string, y: string)
    requires Free(a, ':') && Free(b, ':') && a + ":" + x <= b + ":" + y
    ensures a == b && x <= y
  {
    var s, t := a + ":" + x, b + ":" + y;
    assert s[|a|] == ':' && t[|b|] == ':';
    assert a == s[..|a|] == t[..|a|] == b;
    assert x == s[|a| + 1..] && y == t[|b| + 1..];
    assert s == t[..|s|];
  }

  /** The key of a table's result starts with the prefix of another table's keys only if it is the same one. */
  lemma KeyOfTable(prefix: string, table: string, p: string, t: string, rest: string)
    requires Plain(prefix) && Plain(table) && Plain(p) && Plain(t)
    ensures HasPrefix(p + ":" + (t + ":" + rest), TablePrefix(prefix, table)) <==> p == prefix && t == table
  {
    var key, front := p + ":" + (t + ":" + rest), TablePrefix(prefix, table);
    assert front == prefix + ":" + (table + ":" + "");
    if front <= key {
      FirstPart(prefix, table + ":" + "", p, t + ":" + rest);
      FirstPart(table, "", t, rest);
    }
    if p == prefix && t == table {
      assert key == front + rest;
    }
  }

  function KeyTail(w: World, sql: string, kind: string): string { w.hash(sql) + ":" + kind }

  lemma KeyShape(w: World, prefix: string, table: string, sql: string)
    ensures DataKey(prefix, UniqueId(w, table, sql)) == prefix + ":" + (table + ":" + KeyTail(w, sql, "data"))
    ensures SqlKey(prefix, UniqueId(w, table, sql)) == prefix + ":" + (table + ":" + KeyTail(w, sql, "sql"))
  {
  }

  lemma SameKeyParts(p: string, t: string, x: string, q: string, u: string, y: string)
    requires Free(p, ':') && Free(q, ':') && Free(t, ':') && Free(u, ':')
    requires p + ":" + (t + ":" + x) == q + ":" + (u + ":" + y)
    ensures p == q && t == u && x == y
  {
    FirstPart(p, t + ":" + x, q, u + ":" + y);
    FirstPart(q, u + ":" + y, p, t + ":" + x);
    FirstPart(t, x, u, y);
    FirstPart(u, y, t, x);
  }

  /** Different queries have different keys, and a data key is never a SQL key. */
  lemma KeysDiffer(w: World, p: string, t: string, sql: string, q: string, u: string, other: string)
    requires Injective(w) && Plain(p) && Plain(q) && Plain(t) && Plain(u)
    ensures DataKey(p, UniqueId(w, t, sql)) == DataKey(q, UniqueId(w, u, other)) ==> p == q && t == u && sql == other
    ensures DataKey(p, UniqueId(w, t, sql)) != SqlKey(q, UniqueId(w, u, other))
    ensures DataKey(p, UniqueId(w, t, sql)) != q
  {
    var data, others := DataKey(p, UniqueId(w, t, sql)), DataKey(q, UniqueId(w, u, other));
    var text := SqlKey(q, UniqueId(w, u, other));
    KeyShape(w, p, t, sql);
    KeyShape(w, q, u, other);
    if data == others {
      SameKeyParts(p, t, KeyTail(w, sql, "data"), q, u, KeyTail(w, other, "data"));
      SameHash(w.hash(sql), w.hash(other), "data");
    }
    assert data[|data| - 1] == 'a' && text[|text| - 1] == 'l';
    assert data[|p|] == ':';
  }

  lemma SameHash(a: string, b: string, kind: string)
    requires a + ":" + kind == b + ":" + kind
    ensures a == b
  {
    var s := a + ":" + kind;
    assert |a| == |b| && a == s[..|a|] && b == s[..|a|];
  }
}
